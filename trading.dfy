/**
 * The omniscient trading rule: a proposer who sees both players' shortage
 * and surplus proposes a one-for-one swap that helps both.
 */
module OmniscientTrading {
  import opened Wrappers
  import opened Resources
  import Player

  /** The other side holds a positive surplus of what the proposer wants. */
  predicate WantMatches(surplus2: Dict, w: Resource)
  {
    w in Keys(surplus2) && Amount(surplus2, w) > 0
  }

  /** The other side is short of what the proposer gives. */
  predicate GiveMatches(shortage2: Dict, g: Resource)
  {
    g in Keys(shortage2) && Amount(shortage2, g) > 0
  }

  /** `(want, give)` satisfies all four conditions of the search. */
  predicate Compatible(shortage1: Dict, surplus1: Dict, shortage2: Dict, surplus2: Dict, w: Resource, g: Resource)
  {
    w in Keys(shortage1) && WantMatches(surplus2, w) && g in Keys(surplus1) && GiveMatches(shortage2, g)
  }

  /** The first of `gives` the other side is short of. */
  function FirstGive(gives: seq<Resource>, shortage2: Dict): (g: Option<Resource>)
    ensures g.None? <==> forall k :: 0 <= k < |gives| ==> !GiveMatches(shortage2, gives[k])
    ensures g.Some? ==> exists i :: 0 <= i < |gives| && gives[i] == g.value && GiveMatches(shortage2, gives[i])
                                   && forall k :: 0 <= k < i ==> !GiveMatches(shortage2, gives[k])
  {
    if gives == [] then None
    else if GiveMatches(shortage2, gives[0]) then Some(gives[0])
    else
      var g := FirstGive(gives[1..], shortage2);
      assert forall k :: 1 <= k < |gives| ==> gives[1..][k - 1] == gives[k];
      g
  }

  /** The outer loop over the proposer's wants, in shortage order. */
  function SearchWants(wants: seq<Resource>, gives: seq<Resource>, shortage2: Dict, surplus2: Dict)
    : (r: Option<(Resource, Resource)>)
    ensures r.None? <==> FirstGive(gives, shortage2).None? || forall k :: 0 <= k < |wants| ==> !WantMatches(surplus2, wants[k])
    ensures r.Some? ==> r.value.1 == FirstGive(gives, shortage2).value
    ensures r.Some? ==> exists i :: 0 <= i < |wants| && wants[i] == r.value.0 && WantMatches(surplus2, wants[i])
                                   && forall k :: 0 <= k < i ==> !WantMatches(surplus2, wants[k])
  {
    if wants == [] then None
    else if WantMatches(surplus2, wants[0]) && FirstGive(gives, shortage2).Some? then
      Some((wants[0], FirstGive(gives, shortage2).value))
    else
      var r := SearchWants(wants[1..], gives, shortage2, surplus2);
      assert forall k :: 1 <= k < |wants| ==> wants[1..][k - 1] == wants[k];
      r
  }

  /**
   * `propose_trade(p1, p2)`: one unit of the first compatible give for one
   * unit of the first compatible want, or nothing.
   */
  function ProposeTrade(p1: Player.Player, p2: Player.Player): (t: Option<Trade>)
    reads p1, p2
    ensures t.None? <==> forall w, g :: !Compatible(p1.Delta().0, p1.Delta().1, p2.Delta().0, p2.Delta().1, w, g)
    ensures t.Some? ==> exists w, g :: Compatible(p1.Delta().0, p1.Delta().1, p2.Delta().0, p2.Delta().1, w, g)
                                       && t.value == Trade([Entry(g, 1)], [Entry(w, 1)])
  {
    var (s1, x1) := p1.Delta();
    var (s2, x2) := p2.Delta();
    match SearchWants(Keys(s1), Keys(x1), s2, x2)
    case None =>
      None
    case Some((w, g)) =>
      assert Compatible(s1, x1, s2, x2, w, g);
      Some(Trade([Entry(g, 1)], [Entry(w, 1)]))
  }

  /**
   * A proposed trade moves one unit each way, of two different resources:
   * what the proposer wants it is short of, and what it gives it has in
   * surplus, and no resource is both.
   */
  lemma ProposedTradeSwapsDistinctUnits(p1: Player.Player, p2: Player.Player)
    requires ProposeTrade(p1, p2).Some?
    ensures var t := ProposeTrade(p1, p2).value;
            && |t.give| == 1 && |t.get| == 1
            && t.give[0].amount == 1 && t.get[0].amount == 1
            && t.give[0].res in Keys(p1.Delta().1) && t.get[0].res in Keys(p1.Delta().0)
            && t.give[0].res != t.get[0].res
  {
    var t := ProposeTrade(p1, p2).value;
    var w, g :| Compatible(p1.Delta().0, p1.Delta().1, p2.Delta().0, p2.Delta().1, w, g)
                && t == Trade([Entry(g, 1)], [Entry(w, 1)]);
    OrdersArePermutations();
    DeltaDisjoint(p1.resources, Cost(p1.currentGoal), LumberFirstOrder, w);
  }
}

/**
 * The broadcast-and-react trading rule: a player publishes a one-for-one
 * offer from its own shortage and surplus, and others decide alone whether
 * to take it.
 */
module BroadcastTrading {
  import opened Wrappers
  import opened Resources
  import Player

  /**
   * `generate_offer(player)`: one unit of its first surplus resource for one
   * unit of its first short resource, or nothing if either is empty.
   */
  function GenerateOffer(p: Player.Player): (t: Option<Trade>)
    reads p
    ensures t.None? <==> p.Delta().0 == [] || p.Delta().1 == []
    ensures t.Some? ==> t.value == Trade([Entry(Keys(p.Delta().1)[0], 1)], [Entry(Keys(p.Delta().0)[0], 1)])
  {
    var (shortage, surplus) := p.Delta();
    if shortage == [] || surplus == [] then None
    else Some(Trade([Entry(surplus[0].res, 1)], [Entry(shortage[0].res, 1)]))
  }

  /** Some resource of `keys` is one the hand holds. */
  function AnyHeld(keys: seq<Resource>, h: Hand): (b: bool)
    ensures b <==> exists r :: r in keys && Count(h, r) > 0
  {
    if keys == [] then false
    else if Count(h, keys[0]) > 0 then true
    else
      assert forall r :: r in keys <==> r == keys[0] || r in keys[1..];
      AnyHeld(keys[1..], h)
  }

  /** Some resource of `keys` is one the player is short of. */
  function AnyShort(keys: seq<Resource>, shortage: Dict): (b: bool)
    ensures b <==> exists r :: r in keys && r in Keys(shortage)
  {
    if keys == [] then false
    else if keys[0] in Keys(shortage) then assert keys[0] in keys; true
    else
      assert forall r :: r in keys <==> r == keys[0] || r in keys[1..];
      AnyShort(keys[1..], shortage)
  }

  /**
   * `would_accept_offer(p, offer_give, offer_get)`: the player holds some
   * resource it is asked for and is short of some resource it is offered.
   */
  function WouldAcceptOffer(p: Player.Player, offerGive: Dict, offerGet: Dict): (b: bool)
    reads p
    ensures b <==> (exists r :: r in Keys(offerGet) && Count(p.resources, r) > 0)
                   && (exists r :: r in Keys(offerGive) && r in Keys(p.Delta().0))
    ensures offerGet == [] ==> !b
  {
    var held := AnyHeld(Keys(offerGet), p.resources);
    var short := AnyShort(Keys(offerGive), p.Delta().0);
    held && short
  }

  /**
   * A published offer gives one unit of a resource the player has in
   * surplus for one unit of a different resource it is short of.
   */
  lemma OfferSwapsDistinctUnits(p: Player.Player)
    requires GenerateOffer(p).Some?
    ensures var t := GenerateOffer(p).value;
            && |t.give| == 1 && |t.get| == 1
            && t.give[0].amount == 1 && t.get[0].amount == 1
            && t.give[0].res in Keys(p.Delta().1) && t.get[0].res in Keys(p.Delta().0)
            && t.give[0].res != t.get[0].res
  {
    var t := GenerateOffer(p).value;
    OrdersArePermutations();
    DeltaDisjoint(p.resources, Cost(p.currentGoal), LumberFirstOrder, t.get[0].res);
  }
}
