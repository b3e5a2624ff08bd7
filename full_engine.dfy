/**
 * The trade engine of the full simulation: it rolls the dice (scripted rolls
 * first), executes all-or-nothing trades between two players, lets a player
 * build its current goal, and distributes resources for a roll.
 */
module FullEngine {
  import opened Wrappers
  import opened Resources
  import opened Players

  /** The dice numbers a new settlement tile may carry: every sum of two dice but 7. */
  const DiceNumbers: seq<int> := [2, 3, 4, 5, 6, 8, 9, 10, 11, 12]

  /** The tile a settlement adds from the draws at `pos` (its resource) and `pos + 1` (its dice number). */
  function NewTile(rng: Stream, pos: nat): (s: Source)
    ensures s.res in ResourceOrder && s.dice in DiceNumbers && !s.isCity
  {
    Source(Pick(ResourceOrder, rng(pos)), Pick(DiceNumbers, rng(pos + 1)), false)
  }

  /** The first `n` tiles a settlement adds, drawing from `pos` on. */
  function NewTiles(rng: Stream, pos: nat, n: nat): (ts: seq<Source>)
    ensures |ts| == n
    ensures forall i :: 0 <= i < n ==> ts[i] == NewTile(rng, pos + 2 * i)
  {
    if n == 0 then [] else NewTiles(rng, pos, n - 1) + [NewTile(rng, pos + 2 * (n - 1))]
  }

  /** The aligned triple `3k, 3k+1, 3k+2` exists and has no city. */
  predicate SettlementTriple(srcs: seq<Source>, k: nat)
  {
    3 * k + 3 <= |srcs| && !srcs[3 * k].isCity && !srcs[3 * k + 1].isCity && !srcs[3 * k + 2].isCity
  }

  /** The settlement triples among the first `n` aligned triples, in increasing order. */
  function GroupsUpTo(srcs: seq<Source>, n: nat): (gs: seq<nat>)
    ensures forall k: nat :: k in gs <==> k < n && SettlementTriple(srcs, k)
    ensures forall i, j :: 0 <= i < j < |gs| ==> gs[i] < gs[j]
  {
    if n == 0 then []
    else
      var rest := GroupsUpTo(srcs, n - 1);
      assert forall i :: 0 <= i < |rest| ==> rest[i] in rest;
      rest + (if SettlementTriple(srcs, n - 1) then [n - 1] else [])
  }

  /** The sources with triple `k` turned into city tiles, keeping resource and dice. */
  function Upgrade(srcs: seq<Source>, k: nat): (us: seq<Source>)
    ensures |us| == |srcs|
  {
    seq(|srcs|, i requires 0 <= i < |srcs| => if 3 * k <= i < 3 * k + 3 then srcs[i].(isCity := true) else srcs[i])
  }

  /** What one source yields of `r` on a roll: 2 for a city, 1 otherwise, nothing unless its number came up. */
  function Yield(s: Source, roll: int, r: Resource): (y: nat)
    ensures y > 0 <==> s.dice == roll && s.res == r
    ensures y <= 2 && (y == 2 <==> s.dice == roll && s.res == r && s.isCity)
  {
    if s.dice == roll && s.res == r then (if s.isCity then 2 else 1) else 0
  }

  /** What all of `srcs` together yield of `r` on a roll: at most two per tile. */
  function TotalYield(srcs: seq<Source>, roll: int, r: Resource): (t: nat)
    ensures t <= 2 * |srcs|
  {
    if srcs == [] then 0 else TotalYield(srcs[..|srcs| - 1], roll, r) + Yield(srcs[|srcs| - 1], roll, r)
  }

  /** The hand after collecting from `srcs` one after another on `roll`. */
  function Gather(h: Hand, srcs: seq<Source>, roll: int): Hand
  {
    if srcs == [] then h
    else
      var h' := Gather(h, srcs[..|srcs| - 1], roll);
      var s := srcs[|srcs| - 1];
      if s.dice == roll then h'[s.res := Count(h', s.res) + (if s.isCity then 2 else 1)] else h'
  }

  class TradeEngine {
    var players: seq<Player>
    var diceRolls: Option<seq<int>>
    var rollIndex: nat
    const rng: Stream
    var rngPos: nat

    constructor (players0: seq<Player>, diceRolls0: Option<seq<int>>, rng0: Stream)
      ensures players == players0 && diceRolls == diceRolls0 && rng == rng0
      ensures rollIndex == 0 && rngPos == 0
    {
      players := players0;
      diceRolls := diceRolls0;
      rollIndex := 0;
      rng := rng0;
      rngPos := 0;
    }

    /** A scripted roll is left to consume. */
    predicate Scripted()
      reads this
    {
      diceRolls.Some? && rollIndex < |diceRolls.value|
    }

    /**
     * `_next_roll`: the next scripted roll while any is left; otherwise the sum
     * of two dice drawn from the random source.
     */
    method NextRoll() returns (roll: int)
      modifies this`rollIndex, this`rngPos
      ensures old(Scripted()) ==>
                roll == diceRolls.value[old(rollIndex)] && rollIndex == old(rollIndex) + 1 && rngPos == old(rngPos)
      ensures !old(Scripted()) ==>
                && roll == RandInt(1, 6, rng(old(rngPos))) + RandInt(1, 6, rng(old(rngPos) + 1))
                && 2 <= roll <= 12
                && rollIndex == old(rollIndex) && rngPos == old(rngPos) + 2
    {
      if diceRolls.Some? && |diceRolls.value| > 0 && rollIndex < |diceRolls.value| {
        roll := diceRolls.value[rollIndex];
        rollIndex := rollIndex + 1;
        return;
      }
      roll := RandInt(1, 6, rng(rngPos)) + RandInt(1, 6, rng(rngPos + 1));
      rngPos := rngPos + 2;
    }

    /**
     * `execute_trade`: if `p1` holds every count of `give` and `p2` every
     * count of `get`, `p1` hands over `give` and receives `get`; otherwise
     * nobody changes.
     */
    method ExecuteTrade(p1: Player, p2: Player, give: Dict, get: Dict) returns (ok: bool)
      requires p1 != p2 && DistinctKeys(give) && DistinctKeys(get)
      modifies p1`resources, p2`resources
      ensures ok <==> Affords(old(p1.resources), give) && Affords(old(p2.resources), get)
      ensures !ok ==> p1.resources == old(p1.resources) && p2.resources == old(p2.resources)
      ensures ok ==> p1.resources == Deposit(Withdraw(old(p1.resources), give), get)
      ensures ok ==> p2.resources == Withdraw(Deposit(old(p2.resources), give), get)
    {
      var has := Holds(p1, give);
      if !has {
        return false;
      }
      has := Holds(p2, get);
      if !has {
        return false;
      }
      Transfer(p1, p2, give);
      Transfer(p2, p1, get);
      return true;
    }

    /**
     * `attempt_build`: if the player has a goal and can afford it, pays its
     * cost, records the building, drops the goal from the queue, and adds or
     * upgrades tiles for a settlement or a city.
     */
    method AttemptBuild(player: Player) returns (ok: bool)
      modifies player`resources, player`buildings, player`goalQueue, player`resourceSources, this`rngPos
      ensures ok <==> old(player.goalQueue) != [] && Affords(old(player.resources), Cost(old(player.goalQueue)[0]))
      ensures !ok ==> && player.resources == old(player.resources) && player.buildings == old(player.buildings)
                      && player.goalQueue == old(player.goalQueue)
                      && player.resourceSources == old(player.resourceSources) && rngPos == old(rngPos)
      ensures ok ==> var goal := old(player.goalQueue)[0];
                     && player.resources == Withdraw(old(player.resources), Cost(goal))
                     && player.buildings == old(player.buildings) + [goal]
                     && player.goalQueue == old(player.goalQueue)[1..]
      ensures ok && old(player.goalQueue)[0] == Settlement ==>
                player.resourceSources == old(player.resourceSources) + NewTiles(rng, old(rngPos), 3)
                && rngPos == old(rngPos) + 6
      ensures ok && old(player.goalQueue)[0] == City ==>
                var groups := GroupsUpTo(old(player.resourceSources), |old(player.resourceSources)| / 3);
                if groups == [] then player.resourceSources == old(player.resourceSources) && rngPos == old(rngPos)
                else player.resourceSources == Upgrade(old(player.resourceSources), Pick(groups, rng(old(rngPos))))
                     && rngPos == old(rngPos) + 1
      ensures ok && old(player.goalQueue)[0] in {Road, DevCard} ==>
                player.resourceSources == old(player.resourceSources) && rngPos == old(rngPos)
    {
      if player.goalQueue == [] {
        return false;
      }
      var goal := player.goalQueue[0];
      var cost := Cost(goal);
      if !Affords(player.resources, cost) {
        return false;
      }
      PayCost(player, cost);
      player.buildings := player.buildings + [goal];
      player.goalQueue := player.goalQueue[1..];
      if goal == Settlement {
        AddSettlementTiles(player);
      } else if goal == City {
        UpgradeSettlement(player);
      }
      return true;
    }

    /** Three new non-city tiles, each drawing its resource and then its dice number. */
    method AddSettlementTiles(player: Player)
      modifies player`resourceSources, this`rngPos
      ensures player.resourceSources == old(player.resourceSources) + NewTiles(rng, old(rngPos), 3)
      ensures rngPos == old(rngPos) + 6
    {
      ghost var srcs0, pos0 := player.resourceSources, rngPos;
      var n := 0;
      while n < 3
        invariant 0 <= n <= 3
        invariant player.resourceSources == srcs0 + NewTiles(rng, pos0, n)
        invariant rngPos == pos0 + 2 * n
      {
        var tile := NewTile(rng, rngPos);
        rngPos := rngPos + 2;
        ghost var tiles := NewTiles(rng, pos0, n);
        assert NewTiles(rng, pos0, n + 1) == tiles + [tile];
        player.resourceSources := player.resourceSources + [tile];
        assert player.resourceSources == srcs0 + (tiles + [tile]);
        n := n + 1;
      }
    }

    /**
     * Collects the aligned all-settlement triples and, if there is one, turns
     * the triple chosen by one draw into city tiles.
     */
    method UpgradeSettlement(player: Player)
      modifies player`resourceSources, this`rngPos
      ensures var groups := GroupsUpTo(old(player.resourceSources), |old(player.resourceSources)| / 3);
              if groups == [] then player.resourceSources == old(player.resourceSources) && rngPos == old(rngPos)
              else player.resourceSources == Upgrade(old(player.resourceSources), Pick(groups, rng(old(rngPos))))
                   && rngPos == old(rngPos) + 1
    {
      var groups := SettlementGroups(player.resourceSources);
      if groups != [] {
        var chosen := Pick(groups, rng(rngPos));
        rngPos := rngPos + 1;
        UpgradeTriple(player, chosen);
      }
    }

    /**
     * The distribution step of a trading round: every player collects from each
     * of its sources whose number matches the roll.
     */
    method DistributeResources(roll: int)
      requires forall i, j :: 0 <= i < j < |players| ==> players[i] != players[j]
      modifies set p | p in players
      ensures forall i :: 0 <= i < |players| ==>
                players[i].resources == Gather(old(players[i].resources), old(players[i].resourceSources), roll)
      ensures forall p :: p in players ==>
                && p.name == old(p.name) && p.buildings == old(p.buildings)
                && p.resourceSources == old(p.resourceSources) && p.goalQueue == old(p.goalQueue)
    {
      var i := 0;
      while i < |players|
        invariant 0 <= i <= |players|
        invariant forall k :: 0 <= k < i ==>
                    players[k].resources == Gather(old(players[k].resources), old(players[k].resourceSources), roll)
        invariant forall k :: i <= k < |players| ==> players[k].resources == old(players[k].resources)
        invariant forall p :: p in players ==>
                    && p.name == old(p.name) && p.buildings == old(p.buildings)
                    && p.resourceSources == old(p.resourceSources) && p.goalQueue == old(p.goalQueue)
      {
        var p := players[i];
        Collect(p, roll);
        i := i + 1;
      }
    }
  }

  /** One player's share of the distribution: its sources on `roll`, in order. */
  method Collect(p: Player, roll: int)
    modifies p`resources
    ensures p.resources == Gather(old(p.resources), p.resourceSources, roll)
  {
    ghost var h0 := p.resources;
    var srcs := p.resourceSources;
    var j := 0;
    while j < |srcs|
      invariant 0 <= j <= |srcs|
      invariant p.resources == Gather(h0, srcs[..j], roll)
    {
      assert srcs[..j + 1][..j] == srcs[..j];
      var s := srcs[j];
      if s.dice == roll {
        var amount := if s.isCity then 2 else 1;
        p.AddResource(s.res, amount);
      }
      j := j + 1;
    }
    assert srcs[..j] == srcs;
  }

  /** Pays a cost entry by entry with `remove_resource`. */
  method PayCost(p: Player, cost: Dict)
    modifies p`resources
    ensures p.resources == Withdraw(old(p.resources), cost)
  {
    ghost var h0 := p.resources;
    var i := 0;
    while i < |cost|
      invariant 0 <= i <= |cost|
      invariant p.resources == Withdraw(h0, cost[..i])
    {
      assert cost[..i + 1][..i] == cost[..i];
      p.RemoveResource(cost[i].res, cost[i].amount);
      i := i + 1;
    }
    assert cost[..i] == cost;
  }

  /** `all(p.resources[r] >= c for r, c in d.items())`, stopping at the first shortfall. */
  method Holds(p: Player, d: Dict) returns (b: bool)
    ensures b <==> Affords(p.resources, d)
  {
    var i := 0;
    while i < |d|
      invariant 0 <= i <= |d|
      invariant forall k :: 0 <= k < i ==> Count(p.resources, d[k].res) >= d[k].amount
    {
      if Count(p.resources, d[i].res) < d[i].amount {
        return false;
      }
      i := i + 1;
    }
    return true;
  }

  /** One transfer loop of `execute_trade`: each entry leaves `src` and reaches `dst`. */
  method Transfer(src: Player, dst: Player, d: Dict)
    requires src != dst
    modifies src`resources, dst`resources
    ensures src.resources == Withdraw(old(src.resources), d)
    ensures dst.resources == Deposit(old(dst.resources), d)
  {
    ghost var hs, hd := src.resources, dst.resources;
    var i := 0;
    while i < |d|
      invariant 0 <= i <= |d|
      invariant src.resources == Withdraw(hs, d[..i]) && dst.resources == Deposit(hd, d[..i])
    {
      assert d[..i + 1][..i] == d[..i];
      src.RemoveResource(d[i].res, d[i].amount);
      dst.AddResource(d[i].res, d[i].amount);
      i := i + 1;
    }
    assert d[..i] == d;
  }

  /** The loop over `range(len(sources) // 3)` collecting the all-settlement triples. */
  method SettlementGroups(srcs: seq<Source>) returns (groups: seq<nat>)
    ensures groups == GroupsUpTo(srcs, |srcs| / 3)
  {
    groups := [];
    var k := 0;
    while k < |srcs| / 3
      invariant 0 <= k <= |srcs| / 3
      invariant groups == GroupsUpTo(srcs, k)
    {
      if !srcs[3 * k].isCity && !srcs[3 * k + 1].isCity && !srcs[3 * k + 2].isCity {
        groups := groups + [k];
      }
      k := k + 1;
    }
  }

  /** Turns the three tiles of triple `k` into city tiles. */
  method UpgradeTriple(player: Player, k: nat)
    requires 3 * k + 3 <= |player.resourceSources|
    modifies player`resourceSources
    ensures player.resourceSources == Upgrade(old(player.resourceSources), k)
  {
    ghost var srcs := player.resourceSources;
    var j := 0;
    while j < 3
      invariant 0 <= j <= 3
      invariant |player.resourceSources| == |srcs|
      invariant forall i :: 0 <= i < |srcs| ==>
                  player.resourceSources[i] == if 3 * k <= i < 3 * k + j then srcs[i].(isCity := true) else srcs[i]
    {
      var s := player.resourceSources[3 * k + j];
      player.resourceSources := player.resourceSources[3 * k + j := Source(s.res, s.dice, true)];
      j := j + 1;
    }
    assert player.resourceSources == Upgrade(srcs, k);
  }

  /** Depositing never lowers a count, so what was affordable stays affordable. */
  lemma DepositKeepsAffordable(h: Hand, d: Dict, e: Dict)
    requires DistinctKeys(d) && Affords(h, e)
    ensures Affords(Deposit(h, d), e)
  {
    forall i | 0 <= i < |e| ensures Count(Deposit(h, d), e[i].res) >= e[i].amount {
      DepositExactly(h, d, e[i].res);
    }
  }

  /**
   * A successful trade moves exactly the traded counts: the proposer loses
   * `give` and gains `get`, the partner the reverse, no count is clamped,
   * and the two players together hold what they held before.
   */
  lemma TradeIsExactAndConserves(h1: Hand, h2: Hand, give: Dict, get: Dict, r: Resource)
    requires DistinctKeys(give) && DistinctKeys(get) && Affords(h1, give) && Affords(h2, get)
    ensures var h1' := Deposit(Withdraw(h1, give), get);
            var h2' := Withdraw(Deposit(h2, give), get);
            && Count(h1', r) == Count(h1, r) - Amount(give, r) + Amount(get, r)
            && Count(h2', r) == Count(h2, r) + Amount(give, r) - Amount(get, r)
            && Count(h1', r) + Count(h2', r) == Count(h1, r) + Count(h2, r)
  {
    WithdrawExactly(h1, give, r);
    DepositExactly(Withdraw(h1, give), get, r);
    DepositExactly(h2, give, r);
    DepositKeepsAffordable(h2, give, get);
    WithdrawExactly(Deposit(h2, give), get, r);
    WithdrawExactly(h2, get, r);
  }

  lemma {:induction false} GroupsUpToUpgrade(srcs: seq<Source>, k: nat, n: nat)
    requires SettlementTriple(srcs, k)
    ensures forall m: nat :: m in GroupsUpTo(Upgrade(srcs, k), n) <==> m in GroupsUpTo(srcs, n) && m != k
  {
    var us := Upgrade(srcs, k);
    forall m: nat ensures SettlementTriple(us, m) <==> SettlementTriple(srcs, m) && m != k {
      if 3 * m + 3 <= |srcs| {
        assert us[3 * m] == if m == k then srcs[3 * m].(isCity := true) else srcs[3 * m];
        if m != k {
          assert us[3 * m + 1] == srcs[3 * m + 1] && us[3 * m + 2] == srcs[3 * m + 2];
        }
      }
    }
  }

  /**
   * Upgrading a chosen settlement triple turns exactly that triple into city
   * tiles: afterwards it is no longer a settlement triple, every other one
   * still is, and nothing else changes.
   */
  lemma UpgradeTakesExactlyOneTriple(srcs: seq<Source>, k: nat)
    requires k in GroupsUpTo(srcs, |srcs| / 3)
    ensures var us := Upgrade(srcs, k);
            && |us| == |srcs|
            && us[3 * k].isCity && us[3 * k + 1].isCity && us[3 * k + 2].isCity
            && (forall j :: 3 * k <= j < 3 * k + 3 ==> us[j].res == srcs[j].res && us[j].dice == srcs[j].dice)
            && (forall j :: 0 <= j < |srcs| && !(3 * k <= j < 3 * k + 3) ==> us[j] == srcs[j])
            && (forall m: nat :: m in GroupsUpTo(us, |us| / 3) <==> m in GroupsUpTo(srcs, |srcs| / 3) && m != k)
  {
    GroupsUpToUpgrade(srcs, k, |srcs| / 3);
  }

  /** The triple picked for a city is one of the settlement triples. */
  lemma ChosenTripleIsSettlement(srcs: seq<Source>, d: nat)
    requires GroupsUpTo(srcs, |srcs| / 3) != []
    ensures SettlementTriple(srcs, Pick(GroupsUpTo(srcs, |srcs| / 3), d))
  {
  }

  /**
   * On a roll a player gains, of each resource, 1 per matching settlement
   * tile and 2 per matching city tile, and nothing from other tiles.
   */
  lemma {:induction false} GatherGainsTotalYield(h: Hand, srcs: seq<Source>, roll: int, r: Resource)
    ensures Count(Gather(h, srcs, roll), r) == Count(h, r) + TotalYield(srcs, roll, r)
  {
    if srcs != [] {
      GatherGainsTotalYield(h, srcs[..|srcs| - 1], roll, r);
    }
  }

  /** A roll that matches no tile changes no count. */
  lemma {:induction false} NoMatchingTileNoYield(srcs: seq<Source>, roll: int, r: Resource)
    requires forall i :: 0 <= i < |srcs| ==> srcs[i].dice != roll
    ensures TotalYield(srcs, roll, r) == 0
  {
    if srcs != [] {
      NoMatchingTileNoYield(srcs[..|srcs| - 1], roll, r);
    }
  }
}
