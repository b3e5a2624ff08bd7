/**
 * The player of the trading simulation: a hand of resource counts, the
 * buildings built so far, the resource tiles it collects from, and a queue
 * of building goals. Counts are updated in place.
 */
module Players {
  import opened Wrappers
  import opened Resources

  /** A tile the player collects from: its resource, its dice number, and whether a city stands on it. */
  datatype Source = Source(res: Resource, dice: int, isCity: bool)

  /** The goals a new player works through, in order. */
  const InitialGoals: seq<Building> := [Settlement, City, DevCard]

  class Player {
    var name: string
    var resources: Hand
    var buildings: seq<Building>
    var resourceSources: seq<Source>
    var goalQueue: seq<Building>

    /** A new player holds nothing, has built nothing and starts with the settlement goal. */
    constructor (name0: string)
      ensures name == name0
      ensures forall r :: Count(resources, r) == 0
      ensures buildings == [] && resourceSources == []
      ensures goalQueue == InitialGoals
    {
      name := name0;
      resources := EmptyHand;
      buildings := [];
      resourceSources := [];
      goalQueue := InitialGoals;
    }

    /** The head of the goal queue, or nothing once every goal is built. */
    function CurrentGoal(): (g: Option<Building>)
      reads this
      ensures g.None? <==> goalQueue == []
      ensures g.Some? ==> g.value == goalQueue[0] && g.value in goalQueue
    {
      if goalQueue == [] then None else Some(goalQueue[0])
    }

    /** Raises the count of `r` by `count`; every other count is unchanged. */
    method AddResource(r: Resource, count: nat)
      modifies this`resources
      ensures Count(resources, r) == Count(old(resources), r) + count
      ensures forall s :: s != r ==> Count(resources, s) == Count(old(resources), s)
      ensures resources == old(resources)[r := Count(old(resources), r) + count]
    {
      resources := resources[r := Count(resources, r) + count];
    }

    /** Lowers the count of `r` by `count`, stopping at zero; every other count is unchanged. */
    method RemoveResource(r: Resource, count: nat)
      modifies this`resources
      ensures Count(resources, r) == if Count(old(resources), r) >= count then Count(old(resources), r) - count else 0
      ensures forall s :: s != r ==> Count(resources, s) == Count(old(resources), s)
      ensures resources == old(resources)[r := Clamp(Count(old(resources), r) - count)]
    {
      resources := resources[r := Clamp(Count(resources, r) - count)];
    }

    /**
     * What the player lacks for its current goal and holds beyond it, each in
     * the hand's resource order; both empty when there is no goal.
     */
    method ResourceDelta() returns (shortage: Dict, surplus: Dict)
      ensures CurrentGoal().None? ==> shortage == [] && surplus == []
      ensures CurrentGoal().Some? ==>
                && shortage == ShortageOf(resources, Cost(CurrentGoal().value), ResourceOrder)
                && surplus == SurplusOf(resources, Cost(CurrentGoal().value), ResourceOrder)
    {
      if goalQueue == [] {
        return [], [];
      }
      var cost := Cost(goalQueue[0]);
      var h := resources;
      OrdersArePermutations();
      shortage, surplus := SplitAgainstCost(h, cost, ResourceOrder);
      // any resource the goal does not ask for counts as surplus
      var i := 0;
      while i < |ResourceOrder|
        invariant 0 <= i <= |ResourceOrder|
        invariant surplus == SurplusOf(h, cost, ResourceOrder)
      {
        var r := ResourceOrder[i];
        if Lookup(cost, r).None? && Count(h, r) > 0 {
          NonCostUpdateKeeps(h, cost, ResourceOrder, i);
          var kept := match Lookup(surplus, r) case Some(v) => v case None => Count(h, r);
          surplus := Put(surplus, r, kept);
        }
        i := i + 1;
      }
    }
  }
}
