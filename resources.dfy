/**
 * The integer bookkeeping shared by both player modules: the five resources,
 * the building costs, hands of resource counts, insertion-ordered
 * dictionaries of counts, and the reference definition of a player's
 * shortage and surplus with respect to a goal.
 */
module Resources {
  import opened Wrappers

  datatype Resource = Brick | Lumber | Grain | Wool | Ore

  datatype Building = Road | Settlement | City | DevCard

  /** The resource order of the module-level resource list, used by hands built from it. */
  const ResourceOrder: seq<Resource> := [Brick, Lumber, Grain, Wool, Ore]

  /** The insertion order of the hand literal of the second player module. */
  const LumberFirstOrder: seq<Resource> := [Lumber, Brick, Grain, Wool, Ore]

  predicate Distinct(xs: seq<Resource>)
  {
    forall i, j :: 0 <= i < j < |xs| ==> xs[i] != xs[j]
  }

  /** The position of `r` in `xs`. */
  function IndexOf(xs: seq<Resource>, r: Resource): (i: nat)
    requires r in xs
    ensures i < |xs| && xs[i] == r
  {
    if xs[0] == r then 0 else 1 + IndexOf(xs[1..], r)
  }

  /** Appending a new element keeps a sequence free of repeats. */
  lemma DistinctAppend(xs: seq<Resource>, x: Resource)
    requires Distinct(xs) && x !in xs
    ensures Distinct(xs + [x])
  {
  }

  /** Both orders list every resource exactly once. */
  lemma OrdersArePermutations()
    ensures Distinct(ResourceOrder) && Distinct(LumberFirstOrder)
    ensures forall r: Resource :: r in ResourceOrder && r in LumberFirstOrder
  {
    forall r: Resource ensures r in ResourceOrder && r in LumberFirstOrder {
      match r
      case Brick => assert ResourceOrder[0] == r && LumberFirstOrder[1] == r;
      case Lumber => assert ResourceOrder[1] == r && LumberFirstOrder[0] == r;
      case Grain => assert ResourceOrder[2] == r && LumberFirstOrder[2] == r;
      case Wool => assert ResourceOrder[3] == r && LumberFirstOrder[3] == r;
      case Ore => assert ResourceOrder[4] == r && LumberFirstOrder[4] == r;
    }
  }

  /** A player's resource counts: every resource has a count, so no lookup can fail. */
  type Hand = h: map<Resource, nat> | Brick in h && Lumber in h && Grain in h && Wool in h && Ore in h
    witness map[Brick := 0, Lumber := 0, Grain := 0, Wool := 0, Ore := 0]

  const EmptyHand: Hand := map[Brick := 0, Lumber := 0, Grain := 0, Wool := 0, Ore := 0]

  /** The count the hand holds of `r`. */
  function Count(h: Hand, r: Resource): nat
  {
    match r
    case Brick => h[Brick]
    case Lumber => h[Lumber]
    case Grain => h[Grain]
    case Wool => h[Wool]
    case Ore => h[Ore]
  }

  /** `max(0, have - count)`: removing never drives a count below zero. */
  function Clamp(k: int): nat
  {
    if k < 0 then 0 else k
  }

  /** One `key: count` pair of a dictionary. */
  datatype Entry = Entry(res: Resource, amount: nat)

  /** A dictionary from resources to counts, in insertion order. */
  type Dict = seq<Entry>

  function Keys(d: Dict): (ks: seq<Resource>)
    ensures |ks| == |d|
    ensures forall i :: 0 <= i < |d| ==> ks[i] == d[i].res
  {
    if d == [] then [] else [d[0].res] + Keys(d[1..])
  }

  predicate DistinctKeys(d: Dict)
  {
    Distinct(Keys(d))
  }

  /** `d.get(r)`: the count stored under `r`, if any. */
  function Lookup(d: Dict, r: Resource): Option<nat>
  {
    if d == [] then None
    else if d[0].res == r then Some(d[0].amount)
    else Lookup(d[1..], r)
  }

  /** A lookup succeeds exactly on the keys, and finds an entry of the dictionary. */
  lemma {:induction false} LookupKeys(d: Dict, r: Resource)
    ensures Lookup(d, r).Some? <==> r in Keys(d)
    ensures Lookup(d, r).Some? ==> Entry(r, Lookup(d, r).value) in d
  {
    if d != [] {
      LookupKeys(d[1..], r);
      assert Keys(d) == [d[0].res] + Keys(d[1..]);
    }
  }

  /** `d.get(r, 0)`. */
  function Amount(d: Dict, r: Resource): nat
  {
    match Lookup(d, r)
    case Some(v) => v
    case None => 0
  }

  /**
   * `d[r] = v`: an existing key keeps its position and takes the new count;
   * a new key is appended.
   */
  function Put(d: Dict, r: Resource, v: nat): (d': Dict)
    ensures Lookup(d', r) == Some(v)
    ensures Lookup(d, r).None? ==> d' == d + [Entry(r, v)]
    ensures Lookup(d, r) == Some(v) ==> d' == d
  {
    if d == [] then [Entry(r, v)]
    else if d[0].res == r then [Entry(r, v)] + d[1..]
    else
      var rest := Put(d[1..], r, v);
      assert ([d[0]] + rest)[1..] == rest;
      assert d == [d[0]] + d[1..];
      assert d + [Entry(r, v)] == [d[0]] + (d[1..] + [Entry(r, v)]);
      [d[0]] + rest
  }

  /** `d[r] = v` leaves every other key's count as it was. */
  lemma {:induction false} PutKeepsOthers(d: Dict, r: Resource, v: nat, s: Resource)
    requires s != r
    ensures Lookup(Put(d, r, v), s) == Lookup(d, s)
  {
    if d != [] && d[0].res != r {
      PutKeepsOthers(d[1..], r, v, s);
    }
  }

  /** A trade: what the proposer gives and what it gets in return. */
  datatype Trade = Trade(give: Dict, get: Dict)

  /** The building costs (identical in both player modules). */
  function Cost(b: Building): (c: Dict)
    ensures DistinctKeys(c)
  {
    match b
    case Road => [Entry(Brick, 1), Entry(Lumber, 1)]
    case Settlement => [Entry(Brick, 1), Entry(Lumber, 1), Entry(Grain, 1), Entry(Wool, 1)]
    case City => [Entry(Grain, 2), Entry(Ore, 3)]
    case DevCard => [Entry(Grain, 1), Entry(Ore, 1), Entry(Wool, 1)]
  }

  /** The hand covers every count of the dictionary. */
  predicate Affords(h: Hand, d: Dict)
  {
    forall i :: 0 <= i < |d| ==> Count(h, d[i].res) >= d[i].amount
  }

  /**
   * The entries `f` files for the first `n` resources of `order`, in visiting
   * order: a resource for which `f` yields a count is appended with it, one
   * for which it yields nothing is skipped.
   */
  function Tally(order: seq<Resource>, n: nat, f: Resource -> Option<nat>): Dict
    requires n <= |order|
  {
    if n == 0 then []
    else
      var rest := Tally(order, n - 1, f);
      match f(order[n - 1])
      case Some(v) => rest + [Entry(order[n - 1], v)]
      case None => rest
  }

  /** How many of `r` the hand lacks for the cost, if any. */
  function ShortEntry(h: Hand, cost: Dict, r: Resource): Option<nat>
  {
    if Count(h, r) < Amount(cost, r) then Some(Amount(cost, r) - Count(h, r)) else None
  }

  /** How many of `r` the hand holds beyond the cost, if any. */
  function SurplusEntry(h: Hand, cost: Dict, r: Resource): Option<nat>
  {
    if Count(h, r) > Amount(cost, r) then Some(Count(h, r) - Amount(cost, r)) else None
  }

  /** The shortage filter of a hand against a cost. */
  function ShortFilter(h: Hand, cost: Dict): Resource -> Option<nat>
  {
    r => ShortEntry(h, cost, r)
  }

  /** The surplus filter of a hand against a cost. */
  function SurplusFilter(h: Hand, cost: Dict): Resource -> Option<nat>
  {
    r => SurplusEntry(h, cost, r)
  }

  /** What the hand lacks for the cost, visiting the resources in `order`. */
  function ShortageOf(h: Hand, cost: Dict, order: seq<Resource>): Dict
  {
    Tally(order, |order|, ShortFilter(h, cost))
  }

  /** What the hand holds beyond the cost, visiting the resources in `order`. */
  function SurplusOf(h: Hand, cost: Dict, order: seq<Resource>): Dict
  {
    Tally(order, |order|, SurplusFilter(h, cost))
  }

  /** Every collected entry carries the count `f` yields for its resource. */
  lemma {:induction false} TallySound(order: seq<Resource>, n: nat, f: Resource -> Option<nat>, k: nat)
    requires n <= |order| && k < |Tally(order, n, f)|
    ensures var e := Tally(order, n, f)[k]; f(e.res) == Some(e.amount)
  {
    if k < |Tally(order, n - 1, f)| {
      TallySound(order, n - 1, f, k);
    }
  }

  /** Appending an entry appends its key. */
  lemma KeysAppend(d: Dict, e: Entry)
    ensures Keys(d + [e]) == Keys(d) + [e.res]
  {
    var ks := Keys(d + [e]);
    assert forall k :: 0 <= k < |d| ==> ks[k] == Keys(d)[k];
  }

  /** A resource visited after the first `n` is not yet a key. */
  lemma {:induction false} TallyKeysBefore(order: seq<Resource>, n: nat, m: nat, f: Resource -> Option<nat>)
    requires Distinct(order) && n <= m < |order|
    ensures order[m] !in Keys(Tally(order, n, f))
  {
    if n > 0 {
      var rest := Tally(order, n - 1, f);
      TallyKeysBefore(order, n - 1, m, f);
      assert order[n - 1] != order[m];
      if f(order[n - 1]).Some? {
        KeysAppend(rest, Entry(order[n - 1], f(order[n - 1]).value));
      }
    }
  }

  /** After the first `n` resources, a visited resource holds what `f` filed for it; any other, nothing. */
  lemma {:induction false} TallyLookup(order: seq<Resource>, n: nat, m: nat, f: Resource -> Option<nat>)
    requires Distinct(order) && n <= |order| && m < |order|
    ensures Lookup(Tally(order, n, f), order[m]) == if m < n then f(order[m]) else None
  {
    if n > 0 {
      var rest := Tally(order, n - 1, f);
      TallyLookup(order, n - 1, m, f);
      if f(order[n - 1]).Some? {
        LookupAppend(rest, Entry(order[n - 1], f(order[n - 1]).value), order[m]);
      }
    }
  }

  /** Filing a resource not yet visited keeps the keys distinct. */
  lemma TallyDistinctStep(order: seq<Resource>, n: nat, f: Resource -> Option<nat>)
    requires Distinct(order) && 0 < n <= |order|
    requires DistinctKeys(Tally(order, n - 1, f))
    ensures DistinctKeys(Tally(order, n, f))
  {
    var rest := Tally(order, n - 1, f);
    if f(order[n - 1]).Some? {
      var e := Entry(order[n - 1], f(order[n - 1]).value);
      TallyKeysBefore(order, n - 1, n - 1, f);
      KeysAppend(rest, e);
      DistinctAppend(Keys(rest), order[n - 1]);
    }
  }

  /** The entries collected along a distinct order have distinct keys. */
  lemma {:induction false} TallyDistinct(order: seq<Resource>, n: nat, f: Resource -> Option<nat>)
    requires Distinct(order) && n <= |order|
    ensures DistinctKeys(Tally(order, n, f))
  {
    if n > 0 {
      TallyDistinct(order, n - 1, f);
      TallyDistinctStep(order, n, f);
    }
  }

  /** Visiting `order[i]` files it with `d[r] = v`, which appends since the key is new. */
  lemma TallyStep(order: seq<Resource>, i: nat, f: Resource -> Option<nat>)
    requires Distinct(order) && i < |order|
    ensures Tally(order, i + 1, f) ==
              match f(order[i])
              case Some(v) => Put(Tally(order, i, f), order[i], v)
              case None => Tally(order, i, f)
  {
    TallyKeysBefore(order, i, i, f);
    LookupKeys(Tally(order, i, f), order[i]);
  }

  /** The shortage of a distinct order names each resource at most once, as a dictionary does. */
  lemma ShortageDistinct(h: Hand, cost: Dict, order: seq<Resource>)
    requires Distinct(order)
    ensures DistinctKeys(ShortageOf(h, cost, order))
  {
    TallyDistinct(order, |order|, ShortFilter(h, cost));
  }

  /** The surplus of a distinct order names each resource at most once. */
  lemma SurplusDistinct(h: Hand, cost: Dict, order: seq<Resource>)
    requires Distinct(order)
    ensures DistinctKeys(SurplusOf(h, cost, order))
  {
    TallyDistinct(order, |order|, SurplusFilter(h, cost));
  }

  /**
   * A resource of the order is short exactly when the hand holds fewer than
   * the cost asks, and then by exactly the missing count.
   */
  lemma ShortageExactly(h: Hand, cost: Dict, order: seq<Resource>, r: Resource)
    requires Distinct(order) && r in order
    ensures Lookup(ShortageOf(h, cost, order), r) ==
            (if Count(h, r) < Amount(cost, r) then Some(Amount(cost, r) - Count(h, r)) else None)
  {
    TallyLookup(order, |order|, IndexOf(order, r), ShortFilter(h, cost));
  }

  /**
   * A resource of the order is in surplus exactly when the hand holds more
   * than the cost asks, and then by exactly the excess count.
   */
  lemma SurplusExactly(h: Hand, cost: Dict, order: seq<Resource>, r: Resource)
    requires Distinct(order) && r in order
    ensures Lookup(SurplusOf(h, cost, order), r) ==
            (if Count(h, r) > Amount(cost, r) then Some(Count(h, r) - Amount(cost, r)) else None)
  {
    TallyLookup(order, |order|, IndexOf(order, r), SurplusFilter(h, cost));
  }

  /** A short resource is one the hand holds fewer of than the cost asks. */
  lemma ShortKeySound(h: Hand, cost: Dict, order: seq<Resource>, r: Resource)
    requires r in Keys(ShortageOf(h, cost, order))
    ensures Count(h, r) < Amount(cost, r)
  {
    var s := ShortageOf(h, cost, order);
    var k :| 0 <= k < |s| && s[k].res == r;
    TallySound(order, |order|, ShortFilter(h, cost), k);
  }

  /** A resource in surplus is one the hand holds more of than the cost asks. */
  lemma SurplusKeySound(h: Hand, cost: Dict, order: seq<Resource>, r: Resource)
    requires r in Keys(SurplusOf(h, cost, order))
    ensures Count(h, r) > Amount(cost, r)
  {
    var s := SurplusOf(h, cost, order);
    var k :| 0 <= k < |s| && s[k].res == r;
    TallySound(order, |order|, SurplusFilter(h, cost), k);
  }

  /** No resource is both short and in surplus; one held exactly as required is in neither. */
  lemma DeltaDisjoint(h: Hand, cost: Dict, order: seq<Resource>, r: Resource)
    ensures !(r in Keys(ShortageOf(h, cost, order)) && r in Keys(SurplusOf(h, cost, order)))
    ensures Count(h, r) == Amount(cost, r) ==>
            r !in Keys(ShortageOf(h, cost, order)) && r !in Keys(SurplusOf(h, cost, order))
  {
    if r in Keys(ShortageOf(h, cost, order)) {
      ShortKeySound(h, cost, order, r);
    }
    if r in Keys(SurplusOf(h, cost, order)) {
      SurplusKeySound(h, cost, order, r);
    }
  }

  /** Every short resource is a resource the cost names. */
  lemma ShortageWithinCost(h: Hand, cost: Dict, order: seq<Resource>, r: Resource)
    requires r in Keys(ShortageOf(h, cost, order))
    ensures r in Keys(cost)
  {
    ShortKeySound(h, cost, order, r);
    LookupKeys(cost, r);
  }

  /** A held resource the cost does not name is in surplus with its full count. */
  lemma NonCostSurplusIsFull(h: Hand, cost: Dict, order: seq<Resource>, r: Resource)
    requires Distinct(order) && r in order
    requires r !in Keys(cost) && Count(h, r) > 0
    ensures Lookup(SurplusOf(h, cost, order), r) == Some(Count(h, r))
  {
    SurplusExactly(h, cost, order, r);
    LookupKeys(cost, r);
  }

  /** The entries of a dictionary applied one after another with `remove_resource`. */
  function Withdraw(h: Hand, d: Dict): Hand
  {
    if d == [] then h
    else
      var h' := Withdraw(h, d[..|d| - 1]);
      var e := d[|d| - 1];
      h'[e.res := Clamp(Count(h', e.res) - e.amount)]
  }

  /** The entries of a dictionary applied one after another with `add_resource`. */
  function Deposit(h: Hand, d: Dict): Hand
  {
    if d == [] then h
    else
      var h' := Deposit(h, d[..|d| - 1]);
      var e := d[|d| - 1];
      h'[e.res := Count(h', e.res) + e.amount]
  }

  lemma {:induction false} DistinctKeysPrefix(d: Dict, n: nat)
    requires DistinctKeys(d) && n <= |d|
    ensures DistinctKeys(d[..n])
  {
    assert forall i :: 0 <= i < n ==> Keys(d[..n])[i] == Keys(d)[i];
  }

  lemma {:induction false} LookupAppend(d: Dict, e: Entry, r: Resource)
    ensures Lookup(d + [e], r) ==
            (if Lookup(d, r).Some? then Lookup(d, r) else if e.res == r then Some(e.amount) else None)
  {
    if d != [] {
      assert (d + [e])[1..] == d[1..] + [e];
      LookupAppend(d[1..], e, r);
    }
  }

  lemma AmountOfPrefix(d: Dict, r: Resource)
    requires DistinctKeys(d) && d != []
    ensures var e := d[|d| - 1];
            Amount(d, r) == Amount(d[..|d| - 1], r) + (if e.res == r then e.amount else 0)
  {
    var init := d[..|d| - 1];
    var e := d[|d| - 1];
    assert d == init + [e];
    LookupAppend(init, e, r);
    LookupKeys(init, r);
    assert forall k :: 0 <= k < |init| ==> Keys(d)[k] == Keys(init)[k];
  }

  /**
   * Withdrawing an affordable dictionary with distinct keys takes exactly
   * its counts: no count is clamped.
   */
  lemma {:induction false} WithdrawExactly(h: Hand, d: Dict, r: Resource)
    requires DistinctKeys(d) && Affords(h, d)
    ensures Amount(d, r) <= Count(h, r)
    ensures Withdraw(h, d)[r] == Count(h, r) - Amount(d, r)
  {
    if d != [] {
      var init := d[..|d| - 1];
      var e := d[|d| - 1];
      DistinctKeysPrefix(d, |d| - 1);
      assert Affords(h, init);
      AmountOfPrefix(d, r);
      WithdrawExactly(h, init, r);
      if e.res != r {
        AmountOfPrefix(d, r);
      } else {
        WithdrawExactly(h, init, e.res);
        AmountOfPrefix(d, e.res);
        assert forall k :: 0 <= k < |init| ==> Keys(d)[k] == init[k].res;
        LookupKeys(init, r);
      }
    }
  }

  /** Depositing a dictionary with distinct keys adds exactly its counts. */
  lemma {:induction false} DepositExactly(h: Hand, d: Dict, r: Resource)
    requires DistinctKeys(d)
    ensures Deposit(h, d)[r] == Count(h, r) + Amount(d, r)
  {
    if d != [] {
      var init := d[..|d| - 1];
      DistinctKeysPrefix(d, |d| - 1);
      AmountOfPrefix(d, r);
      DepositExactly(h, init, r);
    }
  }

  /** The second loop's update of a resource the cost does not name leaves the surplus as it is. */
  lemma NonCostUpdateKeeps(h: Hand, cost: Dict, order: seq<Resource>, i: nat)
    requires Distinct(order) && i < |order|
    requires Lookup(cost, order[i]).None? && Count(h, order[i]) > 0
    ensures var s := SurplusOf(h, cost, order);
            && Lookup(s, order[i]) == Some(Count(h, order[i]))
            && Put(s, order[i], Count(h, order[i])) == s
  {
    LookupKeys(cost, order[i]);
    NonCostSurplusIsFull(h, cost, order, order[i]);
  }

  /** One visit of the first loop files `order[i]` into the shortage as the reference does. */
  lemma ShortageStep(h: Hand, cost: Dict, order: seq<Resource>, i: nat)
    requires Distinct(order) && i < |order|
    ensures var r := order[i];
            Tally(order, i + 1, ShortFilter(h, cost)) ==
              (if Count(h, r) < Amount(cost, r)
               then Put(Tally(order, i, ShortFilter(h, cost)), r, Amount(cost, r) - Count(h, r))
               else Tally(order, i, ShortFilter(h, cost)))
  {
    TallyStep(order, i, ShortFilter(h, cost));
  }

  /** One visit of the first loop files `order[i]` into the surplus as the reference does. */
  lemma SurplusStep(h: Hand, cost: Dict, order: seq<Resource>, i: nat)
    requires Distinct(order) && i < |order|
    ensures var r := order[i];
            Tally(order, i + 1, SurplusFilter(h, cost)) ==
              (if Count(h, r) > Amount(cost, r)
               then Put(Tally(order, i, SurplusFilter(h, cost)), r, Count(h, r) - Amount(cost, r))
               else Tally(order, i, SurplusFilter(h, cost)))
  {
    TallyStep(order, i, SurplusFilter(h, cost));
  }

  /**
   * The first loop of `resource_delta`: visits the hand in `order` and files
   * each resource as short, in surplus, or neither.
   */
  method SplitAgainstCost(h: Hand, cost: Dict, order: seq<Resource>) returns (shortage: Dict, surplus: Dict)
    requires Distinct(order)
    ensures shortage == ShortageOf(h, cost, order)
    ensures surplus == SurplusOf(h, cost, order)
  {
    shortage, surplus := [], [];
    var i := 0;
    while i < |order|
      invariant 0 <= i <= |order|
      invariant shortage == Tally(order, i, ShortFilter(h, cost))
      invariant surplus == Tally(order, i, SurplusFilter(h, cost))
    {
      var r := order[i];
      var have, req := Count(h, r), Amount(cost, r);
      ShortageStep(h, cost, order, i);
      SurplusStep(h, cost, order, i);
      if have < req {
        shortage := Put(shortage, r, req - have);
      } else if have > req {
        surplus := Put(surplus, r, have - req);
      }
      i := i + 1;
    }
  }
}
