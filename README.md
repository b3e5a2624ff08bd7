# Algo-Discovery (Catan) in Dafny

This project models two parts of the Catan experiments of Algo-Discovery:

- **The tree-walking mini-language and its random program generator.**
  - There are nine node kinds: Constant, Variable, ListGet, ListSet, Swap, Assign, BinOp, If and Loop.
  - Each node is evaluated against a context, which holds scalar bindings and one list `L`.
  - Each node has a textual rendering.
  - The depth-bounded generator builds `Expr`, `Bool` and `Stmt` trees from random draws.
  - The bubble-sort program in the node module is kept as a fixture.
- **The integer resource bookkeeping of the trading simulation.**
  - Both player classes: hands of the five resources, building goals, and shortage and surplus for a goal.
  - The trade engine: dice rolls, all-or-nothing trades, building, and resource distribution.
  - The two one-for-one trade-matching rules.

Modules and files:

- `wrappers.dfy` (`Wrappers`): `Option`, `Result`, and the random-draw oracle.
- `nodes.dfy` (`Nodes`):
  - values, nodes, errors and contexts;
  - the reference semantics `Run` / `RunLoop`;
  - the rendering `Repr`;
  - the class `Context`, whose `Evaluate` updates its bindings and list in place.
- `node_lemmas.dfy` (`NodeLemmas`): what each node kind does to the context, and the rendering round trip.
- `bubble_sort.dfy` (`BubbleSortFixture`): the bubble-sort tree and the proof that it sorts the fixture list.
- `generator.dfy` and `generator_lemmas.dfy` (`RandomTreeGeneration`, `RandomTreeGenerationLemmas`): the generator and what its output guarantees.
- `resources.dfy` (`Resources`):
  - resources, buildings and costs;
  - hands, which map every resource to a count;
  - insertion-ordered dictionaries;
  - the reference definitions `ShortageOf` / `SurplusOf`;
  - the shared first loop of `resource_delta`.
- `players.dfy` (`Players`): the player of `Catan/Players.py`, with a goal queue.
- `player.dfy` (`Player`): the simpler player of `Catan/Player.py`, with one current goal.
- `full_engine.dfy` (`FullEngine`): the trade engine of `Catan/FullEngine.py`.
- `trading.dfy` (`OmniscientTrading`, `BroadcastTrading`): the two trading rules.

Modelling choices:

- **Python values.** Dynamic values are `VInt | VBool | VNone`.
  - Booleans act as 0 and 1 in arithmetic and comparisons.
  - A condition is true for a non-zero integer or `true`.
  - Every failure of the Python code is an `Error`: an unbound name, a missing list, an index out of range, an operand that is not a number, or an unsupported operator.
  - An error does not undo the context changes made before it. `Outcome` carries both the error and the context.
- **List indices.** Evaluation follows the code, so a negative index counts from the end, as Python does. An index outside `[-|L|, |L|)` is an error. There is no precondition `0 <= idx < |L|`.
- **The name `L`.** The list is bound under the name `L`. Reading, assigning or looping over `L` as a scalar is the error `ReservedName`. In Python this would alias or rebind the list.
- **Randomness.** Every random draw is read from a caller-supplied stream `rng: nat -> nat` at a position that is threaded through the calls.
  - A coin `random() < p` is the parity of the draw.
  - `choice(xs)` is `xs[d % |xs|]`.
  - `randint(a, b)` is `a + d % (b - a + 1)`.
  - The leaf test at or past the maximal depth still consumes a draw, because the code still calls `random.random()`.
- **Maximal depth 0.** The generator does not reject `max_depth = 0`, because the code does not. The ramp `current_depth / max_depth` divides by zero only when the current depth is below a maximal depth of 0. The model returns the error `DivisionByZero` for that case.
- **Resource counts.** Counts and count arguments are natural numbers.
  - A hand maps every one of the five resources to a count, so a lookup cannot fail.
  - A dictionary is a sequence of entries in insertion order, so "first shortage" and "first surplus" are well defined.
  - `Catan/Players.py` builds hands in the order brick, lumber, grain, wool, ore.
  - The hand literal of `Catan/Player.py` starts with lumber.

## Model

| member | source | states |
|---|---|---|
| Nodes.ListIndex | Catan/Nodes.py:35-37 | an index designates a position exactly when it is a number in `[-len, len)`; the position is below `len`; a non-negative index designates itself and a negative index `i` designates `len + i` |
| Nodes.ApplyOp | Catan/Nodes.py:91-105 | the result is the unsupported-operator error exactly when the operator is not `+`, `-`, `>`, `<` or `==`; `+`, `-`, `>` and `<` succeed exactly when both operands are numbers (booleans as 0 and 1) and then give the sum, difference or comparison of their values; `==` always succeeds, compares two numbers by value, and otherwise is true only for nothing against nothing |
| Nodes.Run | Catan/Nodes.py:13-137 | the reference semantics of `evaluate` for every node kind; it has no contract of its own, and the `NodeLemmas` rows below state what each node kind does |
| Nodes.RunLoop | Catan/Nodes.py:133-137 | the iterations `i..count-1` of a loop, rebinding the loop variable before each run of the body; stated by the loop rows of `NodeLemmas` |
| Nodes.IntToString | Catan/Nodes.py:16-17 | `str` of an integer; `NodeLemmas.IntToStringRoundTrip` states that it reads back |
| Nodes.Repr | Catan/Nodes.py:16-140 | the `__repr__` of every node kind; `NodeLemmas.ReprBalanced` states its parenthesis structure |
| Nodes.SwapAt | Catan/Nodes.py:66-67 | the two cells are exchanged, every other cell is kept, and the length and multiset of elements are unchanged |
| Nodes.Context.Evaluate | Catan/Nodes.py:13-137 | evaluating a node in place leaves the result and the context that `Run` gives for the old context |
| NodeLemmas.PureExprLeavesStateUnchanged | Catan/Nodes.py:13-14 | evaluating a Constant, Variable, ListGet or BinOp tree changes neither the bindings nor the list |
| NodeLemmas.ListFreeDependsOnBindings | Catan/Nodes.py:24-25 | an expression that does not read the list evaluates to the same result in any two contexts with the same bindings |
| NodeLemmas.ListSetEffect | Catan/Nodes.py:48-52 | ListSet stores the value at the designated position; every other position, the length and every binding are unchanged |
| NodeLemmas.ListSetOutOfRange | Catan/Nodes.py:51 | an index outside the list makes ListSet fail with the context unchanged |
| NodeLemmas.SwapResult | Catan/Nodes.py:63-67 | Swap returns nothing and replaces the list by the list with the two designated cells exchanged |
| NodeLemmas.SwapEffect | Catan/Nodes.py:63-67 | Swap exchanges the two designated cells, keeps every other cell and binding, and keeps the list a permutation of itself |
| NodeLemmas.SwapTwiceRestores | Catan/Nodes.py:63-67 | applying the same Swap twice restores the context, when the indices do not read the list |
| NodeLemmas.AssignEffect | Catan/Nodes.py:78-79 | Assign binds the name to the value, creating the binding if absent; every other binding and the list are unchanged |
| NodeLemmas.IfTakesOneBranch | Catan/Nodes.py:117-121 | If leaves the context left by exactly the branch its condition selects, and succeeds exactly when that branch does |
| NodeLemmas.LoopZeroIterations | Catan/Nodes.py:133-135 | a loop whose limit is not positive leaves the context untouched |
| NodeLemmas.LoopRunsLastIteration | Catan/Nodes.py:135-137 | iterations `i..n` are iterations `i..n-1` followed by iteration `n` with the loop variable rebound to `n`, whatever the body did to it |
| NodeLemmas.CountingLoop | Catan/Nodes.py:133-137 | a loop incrementing a counter raises it by exactly the number of remaining iterations and leaves the loop variable at its last value |
| NodeLemmas.CountingLoopRunsMaxTimes | Catan/Nodes.py:133-137 | `for x in range(n)` runs its body exactly `max(n, 0)` times |
| NodeLemmas.NatToStringRoundTrip | Catan/Nodes.py:16-17 | `str` of a natural number is a non-empty string of digits that reads back as the number |
| NodeLemmas.IntToStringRoundTrip | Catan/Nodes.py:16-17 | the rendering of a constant reads back as the constant |
| NodeLemmas.ReprNested | Catan/Nodes.py:16-140 | every rendering whose names and operators contain no parentheses opens as many parentheses as it closes, and its lowest prefix balance is zero |
| NodeLemmas.ReprBalanced | Catan/Nodes.py:16-140 | every such rendering opens as many parentheses as it closes, and no prefix of it closes a parenthesis it has not opened |
| BubbleSortFixture.CompareAndSwapStep | Catan/Nodes.py:153-164 | one run of the compare-and-swap conditional performs one reference bubble step on the list and keeps every binding except `temp` |
| BubbleSortFixture.InnerIterations | Catan/Nodes.py:150-152 | the inner loop performs the reference pass over positions `j..m-1` |
| BubbleSortFixture.OuterIterations | Catan/Nodes.py:147-149 | the outer loop performs the reference passes `i..7` |
| BubbleSortFixture.ProgramComputesPasses | Catan/Nodes.py:147-166 | on any list of eight integers the bubble-sort tree succeeds and leaves the list the reference passes give |
| BubbleSortFixture.FixturePasses | Catan/Nodes.py:170 | the reference passes turn `[5, 2, 4, 8, 2, 1, 0, 6]` into `[0, 1, 2, 2, 4, 5, 6, 8]` |
| BubbleSortFixture.BubbleSortSortsFixture | Catan/Nodes.py:169-180 | running the bubble-sort tree on the fixture list leaves `L` as `[0, 1, 2, 2, 4, 5, 6, 8]` |
| BubbleSortFixture.BubbleSortPermutesFixture | Catan/Nodes.py:169-180 | the list the bubble-sort tree leaves holds the same elements as the fixture list |
| RandomTreeGeneration.Choose | Catan/RandomTreeGeneration.py:8-9 | a variable is drawn exactly when the list is non-empty, and it is one of the list |
| RandomTreeGeneration.Generate | Catan/RandomTreeGeneration.py:4-74 | a generated tree has the requested sort, draws its names from the variables, has constants in `[0, 10]`, has a height bounded by the depth budget, and advances the oracle; an unknown sort raises the unsupported-return-type error; a current depth below a maximal depth of 0 divides by zero, and nothing else does; any known sort with variables succeeds |
| RandomTreeGeneration.TerminalExpr | Catan/RandomTreeGeneration.py:15-21 | a terminal expression is a constant in `[0, 10]`, a variable of the list or a read `L[var]`, of height at most 2; it is a constant exactly when the first coin says so, and it fails only on an empty variable list |
| RandomTreeGeneration.GenerateBinOp | Catan/RandomTreeGeneration.py:23-25 | a binary node carries the drawn operator over two well-sorted expressions, with names from the variables, constants in `[0, 10]` and height bounded by the budget, and succeeds whenever there are variables and no division by zero |
| RandomTreeGeneration.GenerateStatement | Catan/RandomTreeGeneration.py:44-71 | a non-terminal statement is well-sorted with names from the variables, and succeeds whenever there are variables |
| RandomTreeGeneration.GenerateIf | Catan/RandomTreeGeneration.py:62-66 | a conditional statement is well-sorted with names from the variables, and succeeds whenever there are variables |
| RandomTreeGeneration.GenerateLoop | Catan/RandomTreeGeneration.py:67-71 | a loop statement is well-sorted with names from the variables, and succeeds whenever there are variables |
| RandomTreeGenerationLemmas.ExprOpsSupported | Catan/RandomTreeGeneration.py:32-36 | an `Expr` tree uses only operators the evaluator supports |
| RandomTreeGenerationLemmas.StmtOpsSupported | Catan/RandomTreeGeneration.py:44-71 | a `Stmt` tree uses only operators the evaluator supports |
| RandomTreeGenerationLemmas.SortedOpsSupported | Catan/RandomTreeGeneration.py:25 | a tree of any sort uses only supported operators |
| RandomTreeGenerationLemmas.SupportedNeverRaisesUnsupported | Catan/Nodes.py:104-105 | evaluating a tree of supported operators never raises the unsupported-operator error |
| RandomTreeGenerationLemmas.LoopNeverRaisesUnsupported | Catan/Nodes.py:135-137 | the iterations of a loop with a supported body never raise the unsupported-operator error |
| RandomTreeGenerationLemmas.GeneratedNeverRaisesUnsupported | Catan/RandomTreeGeneration.py:33-42 | no generated tree raises the unsupported-operator error, in any context |
| RandomTreeGenerationLemmas.NoVariablesNoStatement | Catan/RandomTreeGeneration.py:26-29 | with no variables a statement cannot be generated |
| RandomTreeGenerationLemmas.NoVariablesNoCompoundStatement | Catan/RandomTreeGeneration.py:45-71 | with no variables no non-terminal statement can be generated |
| RandomTreeGenerationLemmas.ForcedLeafIsTerminal | Catan/RandomTreeGeneration.py:4-29 | at or past the maximal depth only terminal productions are taken: a constant, variable or `L[var]`, a `>` comparison, or an assignment |
| Resources.OrdersArePermutations | Catan/Players.py:7 | both resource orders list each of the five resources exactly once |
| Resources.Lookup | Catan/Players.py:58 | `d.get(res)` on an insertion-ordered dictionary; `Resources.LookupKeys` states its meaning |
| Resources.Amount | Catan/Players.py:50 | `d.get(res, 0)`; it is the count of `Resources.LookupKeys` for a key and 0 otherwise |
| Resources.LookupKeys | Catan/Players.py:50 | `cost.get(res)` finds a count exactly when `res` is a key, and the count is one stored under it |
| Resources.Put | Catan/Players.py:52 | the key takes the new count, a new key is appended at the end, and re-storing the same count changes nothing |
| Resources.PutKeepsOthers | Catan/Players.py:52 | storing under one key leaves every other key's count as it was |
| Resources.Cost | Catan/Players.py:9-14 | every building cost has distinct keys |
| Resources.TallySound | Catan/Players.py:49-54 | every entry the first loop files carries the count the test for its resource yields |
| Resources.TallyKeysBefore | Catan/Players.py:49-54 | a resource not yet visited is not yet a key |
| Resources.TallyLookup | Catan/Players.py:49-54 | after the first `n` visits, a visited resource holds what its test yielded and an unvisited one holds nothing |
| Resources.TallyDistinctStep | Catan/Players.py:49-54 | filing a resource not yet visited keeps the keys distinct |
| Resources.TallyDistinct | Catan/Players.py:49-54 | the entries filed along an order without repeats have distinct keys |
| Resources.TallyStep | Catan/Players.py:52-54 | filing the next resource with `d[res] = v` appends it, since it is not yet a key |
| Resources.ShortKeySound | Catan/Player.py:42-43 | every short resource is held below its cost |
| Resources.SurplusKeySound | Catan/Player.py:44-45 | every resource in surplus is held above its cost |
| Resources.ShortageDistinct | Catan/Players.py:52 | the shortage has distinct keys |
| Resources.SurplusDistinct | Catan/Players.py:54 | the surplus has distinct keys |
| Resources.ShortageExactly | Catan/Players.py:49-52 | the shortage holds `req - have` under a resource exactly when `have < req`, and nothing otherwise |
| Resources.SurplusExactly | Catan/Players.py:49-54 | the surplus holds `have - req` under a resource exactly when `have > req`, and nothing otherwise |
| Resources.DeltaDisjoint | Catan/Players.py:51-54 | no resource is both short and in surplus, and one held exactly as required is in neither |
| Resources.ShortageWithinCost | Catan/Player.py:40-43 | every short resource is named by the cost |
| Resources.NonCostSurplusIsFull | Catan/Players.py:56-58 | a held resource the cost does not name is in surplus with its full count |
| Resources.Withdraw | Catan/FullEngine.py:66-67 | the hand after `remove_resource` for each entry in order; `Resources.WithdrawExactly` states its effect |
| Resources.Deposit | Catan/FullEngine.py:44 | the hand after `add_resource` for each entry in order; `Resources.DepositExactly` states its effect |
| Resources.WithdrawExactly | Catan/FullEngine.py:66-67 | paying an affordable dictionary with distinct keys removes exactly its counts, without clamping |
| Resources.DepositExactly | Catan/FullEngine.py:44 | depositing a dictionary with distinct keys adds exactly its counts |
| Resources.ShortageStep | Catan/Players.py:49-52 | one visit of the first loop stores a shortage entry exactly when the reference shortage lists it |
| Resources.SurplusStep | Catan/Players.py:53-54 | one visit of the first loop stores a surplus entry exactly when the reference surplus lists it |
| Resources.NonCostUpdateKeeps | Catan/Players.py:56-58 | the second loop's update of a resource the cost does not name leaves the surplus unchanged |
| Resources.SplitAgainstCost | Catan/Players.py:49-54 | the first loop of `resource_delta` yields exactly the reference shortage and surplus in the visiting order |
| Players.Player.constructor | Catan/Players.py:25-31 | a new player holds no resources, has no buildings or sources, and has the goal queue settlement, city, dev card |
| Players.Player.CurrentGoal | Catan/Players.py:34-36 | the current goal is the head of the goal queue, or nothing when the queue is empty |
| Players.Player.AddResource | Catan/Players.py:38-39 | the named count rises by `count` and every other count is unchanged |
| Players.Player.RemoveResource | Catan/Players.py:41-42 | the named count becomes `max(0, have - count)` and every other count is unchanged |
| Players.Player.ResourceDelta | Catan/Players.py:44-59 | both results are empty without a goal; otherwise they are the reference shortage and surplus in resource order, and the second loop changes no surplus value |
| Player.Player.constructor | Catan/Player.py:12-25 | a new player holds no resources, has no buildings, and aims for a settlement |
| Player.Player.AddResource | Catan/Player.py:27-28 | the named count rises by `count` and every other count is unchanged |
| Player.Player.RemoveResource | Catan/Player.py:30-31 | the named count becomes `max(0, have - count)` and every other count is unchanged |
| Player.Player.Delta | Catan/Player.py:33-51 | the pair `resource_delta` returns, the reference shortage and surplus in lumber-first order; `Resources.ShortageExactly`, `Resources.SurplusExactly` and `Resources.NonCostSurplusIsFull` state its content |
| Player.Player.ResourceDelta | Catan/Player.py:33-51 | the results are the reference shortage and surplus in the hand's lumber-first order |
| FullEngine.NewTile | Catan/FullEngine.py:76-78 | a new settlement tile has one of the five resources, one of the ten dice numbers, and no city |
| FullEngine.NewTiles | Catan/FullEngine.py:75-78 | a settlement adds exactly `n` tiles, each drawn from its own two oracle positions |
| FullEngine.GroupsUpTo | Catan/FullEngine.py:82-87 | the groups are exactly the aligned all-settlement triples, in increasing order |
| FullEngine.Upgrade | Catan/FullEngine.py:91-93 | upgrading keeps the number of sources |
| FullEngine.TradeEngine.constructor | Catan/FullEngine.py:11-20 | a new engine starts at roll index 0 and at the start of its random stream |
| FullEngine.TradeEngine.NextRoll | Catan/FullEngine.py:22-27 | a scripted roll is returned in order and advances the roll index by one; otherwise the roll is the sum of two dice, lies in `2..12`, and leaves the roll index unchanged |
| FullEngine.TradeEngine.ExecuteTrade | Catan/FullEngine.py:29-48 | the trade succeeds exactly when p1 holds `give` and p2 holds `get`; on failure nobody changes; on success p1 pays `give` and receives `get`, and p2 the reverse |
| FullEngine.TradeEngine.AttemptBuild | Catan/FullEngine.py:50-96 | building succeeds exactly when there is a goal and it is affordable, and on failure nothing changes; on success the cost is paid, the goal is recorded and popped, a settlement appends three new tiles, a city upgrades the drawn settlement triple if there is one, and a road or dev card changes no source |
| FullEngine.TradeEngine.AddSettlementTiles | Catan/FullEngine.py:75-78 | three new non-city tiles are appended and the existing sources are kept |
| FullEngine.TradeEngine.UpgradeSettlement | Catan/FullEngine.py:81-93 | the drawn settlement triple is upgraded, or nothing changes when there is none |
| FullEngine.TradeEngine.DistributeResources | Catan/FullEngine.py:103-109 | every player collects from each of its sources matching the roll, and nothing else about any player changes |
| FullEngine.Yield | Catan/FullEngine.py:106-107 | one tile yields the resource only when its number came up and it is that resource, 2 for a city and 1 otherwise |
| FullEngine.TotalYield | Catan/FullEngine.py:105-107 | what all tiles yield of a resource on a roll, at most two per tile |
| FullEngine.Gather | Catan/FullEngine.py:105-108 | the hand after collecting from the tiles one after another; `FullEngine.GatherGainsTotalYield` states the gain |
| FullEngine.Collect | Catan/FullEngine.py:105-108 | one player's hand becomes the hand gathered from its sources on the roll |
| FullEngine.PayCost | Catan/FullEngine.py:66-67 | paying a cost applies `remove_resource` for each entry in order |
| FullEngine.Holds | Catan/FullEngine.py:36-41 | the check succeeds exactly when every count of the dictionary is held |
| FullEngine.Transfer | Catan/FullEngine.py:42-47 | each entry leaves one player by `remove_resource` and reaches the other by `add_resource` |
| FullEngine.SettlementGroups | Catan/FullEngine.py:82-87 | the loop collects exactly the aligned all-settlement triples |
| FullEngine.UpgradeTriple | Catan/FullEngine.py:91-93 | the three tiles of the triple become city tiles with the same resource and dice |
| FullEngine.DepositKeepsAffordable | Catan/FullEngine.py:44-46 | receiving resources keeps every affordable dictionary affordable |
| FullEngine.TradeIsExactAndConserves | Catan/FullEngine.py:42-48 | a successful trade moves exactly the traded counts, clamps nothing, and conserves each resource's total over the two players |
| FullEngine.GroupsUpToUpgrade | Catan/FullEngine.py:84-93 | after an upgrade the settlement triples are the old ones minus the upgraded one |
| FullEngine.UpgradeTakesExactlyOneTriple | Catan/FullEngine.py:80-93 | a city turns exactly the chosen triple into city tiles with the same resource and dice, and leaves every other source and every other settlement triple unchanged |
| FullEngine.ChosenTripleIsSettlement | Catan/FullEngine.py:88-89 | the triple drawn for a city is a settlement triple |
| FullEngine.GatherGainsTotalYield | Catan/FullEngine.py:105-108 | on a roll each resource rises by 1 per matching settlement tile and 2 per matching city tile |
| FullEngine.NoMatchingTileNoYield | Catan/FullEngine.py:106 | tiles whose number did not come up yield nothing |
| OmniscientTrading.FirstGive | Catan/OmniscientTrading.py:9-10 | the give is the first of p1's surplus that p2 is short of, and there is none exactly when no such resource exists |
| OmniscientTrading.SearchWants | Catan/OmniscientTrading.py:7-11 | the want is the first of p1's shortage that p2 holds a positive surplus of, paired with the first matching give |
| OmniscientTrading.ProposeTrade | Catan/OmniscientTrading.py:3-13 | there is no trade exactly when no want and give meet all four conditions; otherwise the trade is one unit of such a give for one unit of such a want |
| OmniscientTrading.ProposedTradeSwapsDistinctUnits | Catan/OmniscientTrading.py:11 | a proposed trade moves one unit each way, of two different resources from p1's surplus and shortage |
| BroadcastTrading.GenerateOffer | Catan/Broadcast-ReactionTrading.py:3-12 | there is no offer exactly when the shortage or the surplus is empty; otherwise the offer is one unit of the first surplus for one unit of the first shortage |
| BroadcastTrading.AnyHeld | Catan/Broadcast-ReactionTrading.py:16-17 | some asked-for resource has a positive count |
| BroadcastTrading.AnyShort | Catan/Broadcast-ReactionTrading.py:19-22 | some offered resource is in the shortage |
| BroadcastTrading.WouldAcceptOffer | Catan/Broadcast-ReactionTrading.py:14-23 | the offer is accepted exactly when the player holds some asked-for resource and is short of some offered resource; an offer that asks for nothing is refused |
| BroadcastTrading.OfferSwapsDistinctUnits | Catan/Broadcast-ReactionTrading.py:11 | an offer gives one unit of a surplus resource for one unit of a different, short resource |

## Left out

- The float leaf ramp `0.05 + 0.5 * depth / max_depth` and the thresholds 0.4 and 0.7 of the generator: each leaf test and each production choice is a coin of the oracle. Only the forced leaf at the maximal depth is kept.
- Python's `random` module: every `random()`, `choice` and `randint` is a draw from the caller-supplied stream. `shuffle` belongs to the trading loop, which is left out.
- The float parts of `Catan/Players.py` (`expected_income`, `resource_urgency_vector`, `marginal_value`, `shadow_prices`, the dice probabilities, the discount factor): floating-point arithmetic.
- From `run_trading_round`: the trading phase, the building phase over all players, and all printing. These depend on the personality agents, which use float shadow prices, and on console output. Only the distribution step is modelled.
- The `gains` dictionary of the distribution step: it only feeds a print.
- The `personality` field of `Catan/Players.py`: it is used only by the trading phase that is left out.
- The `__str__` methods and the module-level demonstration code: console output.
- `Catan/Board.py`, `Catan/Boardv2.py`, `Catan/Agents.py` and `Catan/test.py` are not part of this model (rendering, float pricing and an interactive driver).
- Python aliasing of the list through the name `L`: the name is reserved and using it as a scalar is an error.
- Counts: resource counts and the counts passed to `add_resource` / `remove_resource` are natural numbers. A negative count argument is not modelled.
- Dictionary keys outside the five resources (a `KeyError` in Python): cannot be expressed, because keys have the `Resource` type.
- FullEngine.TradeEngine.ExecuteTrade: requires two distinct players with dictionaries of distinct keys, as the callers pass them. A self-trade, where Python aliases the two hands, is not modelled.
- FullEngine.TradeEngine.DistributeResources: requires the players to be distinct objects. A player listed twice is not modelled.
- NodeLemmas.ReprBalanced: assumes variable names and operators without parentheses. The generator only draws names from `variables` and operators from `+ - > < ==`.
