/**
 * The nested-loop bubble-sort program that exercises the evaluator, and the
 * proof that evaluating it on the fixture list sorts that list.
 */
module BubbleSortFixture {
  import opened Wrappers
  import opened Nodes

  /** `if ((L[j] > L[(j + 1)])) { swap(j, (j + 1)) } else { temp = 0 }` */
  const CompareAndSwap: Node :=
    If(BinOp(">", ListGet(Variable("j")), ListGet(BinOp("+", Variable("j"), Constant(1)))),
       Swap(Variable("j"), BinOp("+", Variable("j"), Constant(1))),
       Assign("temp", Constant(0)))

  /** `for j in range((7 - i)): { ... }` */
  const InnerLoop: Node := Loop("j", BinOp("-", Constant(7), Variable("i")), CompareAndSwap)

  /** `for i in range(8): { ... }` */
  const OuterLoop: Node := Loop("i", Constant(8), InnerLoop)

  /** The list of the context as the integers it holds. */
  function Lift(xs: seq<int>): (vs: seq<Value>)
    ensures |vs| == |xs| && forall p :: 0 <= p < |xs| ==> vs[p] == VInt(xs[p])
  {
    seq(|xs|, p requires 0 <= p < |xs| => VInt(xs[p]))
  }

  /** The reference step: exchange positions j and j+1 when they are out of order. */
  function Step(xs: seq<int>, j: nat): (ys: seq<int>)
    requires j + 1 < |xs|
  {
    if xs[j] > xs[j + 1] then xs[j := xs[j + 1]][j + 1 := xs[j]] else xs
  }

  /** The reference pass: steps j, j+1, ..., m-1. */
  function Pass(xs: seq<int>, j: nat, m: nat): (ys: seq<int>)
    requires j <= m < |xs|
    ensures |ys| == |xs|
    decreases m - j
  {
    if j == m then xs else Pass(Step(xs, j), j + 1, m)
  }

  /** The reference sort: passes i, i+1, ..., 7 of a list of eight. */
  function Passes(xs: seq<int>, i: nat): (ys: seq<int>)
    requires i <= 8 && |xs| == 8
    ensures |ys| == 8
    decreases 8 - i
  {
    if i == 8 then xs else Passes(Pass(xs, 0, 7 - i), i + 1)
  }

  /** The condition of the conditional at position j compares the two neighbours. */
  lemma CompareAt(st: State, xs: seq<int>, j: nat)
    requires j < 7 && |xs| == 8 && st.list == Some(Lift(xs))
    requires "j" in st.vars && st.vars["j"] == VInt(j)
    ensures Run(CompareAndSwap.cond, st) == Outcome(Ok(VBool(xs[j] > xs[j + 1])), st)
  {
    var vs := st.list.value;
    var next := BinOp("+", Variable("j"), Constant(1));
    assert Run(Variable("j"), st) == Outcome(Ok(VInt(j)), st);
    assert Run(next, st) == Outcome(Ok(VInt(j + 1)), st);
    assert Run(ListGet(Variable("j")), st) == Outcome(Ok(vs[j]), st);
    assert Run(ListGet(next), st) == Outcome(Ok(vs[j + 1]), st);
  }

  /** The swap of the conditional at position j exchanges the two neighbours. */
  lemma SwapAtStep(st: State, xs: seq<int>, j: nat)
    requires j < 7 && |xs| == 8 && st.list == Some(Lift(xs)) && xs[j] > xs[j + 1]
    requires "j" in st.vars && st.vars["j"] == VInt(j)
    ensures Run(CompareAndSwap.thenBranch, st) == Outcome(Ok(VNone), st.(list := Some(Lift(Step(xs, j)))))
  {
    var vs := st.list.value;
    var next := BinOp("+", Variable("j"), Constant(1));
    assert Run(Variable("j"), st) == Outcome(Ok(VInt(j)), st);
    assert Run(next, st) == Outcome(Ok(VInt(j + 1)), st);
    assert SwapAt(vs, j, j + 1) == Lift(Step(xs, j));
  }

  /** One run of the conditional at position j performs the reference step. */
  lemma CompareAndSwapStep(st: State, xs: seq<int>, j: nat)
    requires j < 7 && |xs| == 8 && st.list == Some(Lift(xs))
    requires "j" in st.vars && st.vars["j"] == VInt(j)
    ensures var o := Run(CompareAndSwap, st);
            && o.result == Ok(VNone)
            && o.st.list == Some(Lift(Step(xs, j)))
            && (forall y :: y in st.vars && y != "temp" ==> y in o.st.vars && o.st.vars[y] == st.vars[y])
  {
    CompareAt(st, xs, j);
    if xs[j] > xs[j + 1] {
      SwapAtStep(st, xs, j);
    } else {
      assert Run(Assign("temp", Constant(0)), st)
          == Outcome(Ok(VNone), st.(vars := st.vars["temp" := VInt(0)]));
    }
  }

  /** Iterations j .. m-1 of the inner loop perform the reference pass. */
  lemma {:induction false} InnerIterations(st: State, xs: seq<int>, j: nat, m: nat)
    requires j <= m < 8 && |xs| == 8 && st.list == Some(Lift(xs))
    ensures var o := RunLoop("j", CompareAndSwap, j, m, st);
            && o.result == Ok(VNone)
            && o.st.list == Some(Lift(Pass(xs, j, m)))
    decreases m - j
  {
    if j < m {
      var s1 := st.(vars := st.vars["j" := VInt(j)]);
      CompareAndSwapStep(s1, xs, j);
      InnerIterations(Run(CompareAndSwap, s1).st, Step(xs, j), j + 1, m);
    }
  }

  /** The inner loop, entered with `i` bound to i, runs 7 - i iterations. */
  lemma InnerLoopEntry(st: State, i: nat)
    requires "i" in st.vars && st.vars["i"] == VInt(i)
    ensures Run(InnerLoop, st) == RunLoop("j", CompareAndSwap, 0, 7 - i, st)
  {
    assert Run(Variable("i"), st) == Outcome(Ok(VInt(i)), st);
    assert Run(BinOp("-", Constant(7), Variable("i")), st) == Outcome(Ok(VInt(7 - i)), st);
    LoopEntry("j", BinOp("-", Constant(7), Variable("i")), CompareAndSwap, 7 - i, st);
  }

  /** An iteration of a loop that does not fail hands its context to the next one. */
  lemma LoopAdvances(x: string, body: Node, i: nat, count: int, st: State)
    requires i < count && x != ListName
    requires Run(body, st.(vars := st.vars[x := VInt(i)])).result.Ok?
    ensures RunLoop(x, body, i, count, st)
         == RunLoop(x, body, i + 1, count, Run(body, st.(vars := st.vars[x := VInt(i)])).st)
  {
  }

  /** Iterations i .. 7 of the outer loop perform the reference passes. */
  lemma {:induction false} OuterIterations(st: State, xs: seq<int>, i: nat)
    requires i <= 8 && |xs| == 8 && st.list == Some(Lift(xs))
    ensures var o := RunLoop("i", InnerLoop, i, 8, st);
            && o.result == Ok(VNone)
            && o.st.list == Some(Lift(Passes(xs, i)))
    decreases 8 - i
  {
    if i < 8 {
      var s1 := st.(vars := st.vars["i" := VInt(i)]);
      InnerLoopEntry(s1, i);
      InnerIterations(s1, xs, 0, 7 - i);
      var o1 := Run(InnerLoop, s1);
      LoopAdvances("i", InnerLoop, i, 8, st);
      OuterIterations(o1.st, Pass(xs, 0, 7 - i), i + 1);
    }
  }

  /** A loop whose limit evaluates to `k` without effect runs iterations 0 .. k-1. */
  lemma LoopEntry(x: string, lim: Node, body: Node, k: int, st: State)
    requires Run(lim, st) == Outcome(Ok(VInt(k)), st)
    ensures Run(Loop(x, lim, body), st) == RunLoop(x, body, 0, k, st)
  {
  }

  /** One step of a pass, taken on concrete lists. */
  lemma PassStep(xs: seq<int>, ys: seq<int>, j: nat, m: nat)
    requires j < m < |xs|
    requires Step(xs, j) == ys
    ensures Pass(xs, j, m) == Pass(ys, j + 1, m)
  {
  }

  lemma FixturePass0()
    ensures Pass([5, 2, 4, 8, 2, 1, 0, 6], 0, 7) == [2, 4, 5, 2, 1, 0, 6, 8]
  {
    assert Step([5, 2, 4, 8, 2, 1, 0, 6], 0) == [2, 5, 4, 8, 2, 1, 0, 6];
    PassStep([5, 2, 4, 8, 2, 1, 0, 6], [2, 5, 4, 8, 2, 1, 0, 6], 0, 7);
    assert Step([2, 5, 4, 8, 2, 1, 0, 6], 1) == [2, 4, 5, 8, 2, 1, 0, 6];
    PassStep([2, 5, 4, 8, 2, 1, 0, 6], [2, 4, 5, 8, 2, 1, 0, 6], 1, 7);
    assert Step([2, 4, 5, 8, 2, 1, 0, 6], 2) == [2, 4, 5, 8, 2, 1, 0, 6];
    PassStep([2, 4, 5, 8, 2, 1, 0, 6], [2, 4, 5, 8, 2, 1, 0, 6], 2, 7);
    assert Step([2, 4, 5, 8, 2, 1, 0, 6], 3) == [2, 4, 5, 2, 8, 1, 0, 6];
    PassStep([2, 4, 5, 8, 2, 1, 0, 6], [2, 4, 5, 2, 8, 1, 0, 6], 3, 7);
    assert Step([2, 4, 5, 2, 8, 1, 0, 6], 4) == [2, 4, 5, 2, 1, 8, 0, 6];
    PassStep([2, 4, 5, 2, 8, 1, 0, 6], [2, 4, 5, 2, 1, 8, 0, 6], 4, 7);
    assert Step([2, 4, 5, 2, 1, 8, 0, 6], 5) == [2, 4, 5, 2, 1, 0, 8, 6];
    PassStep([2, 4, 5, 2, 1, 8, 0, 6], [2, 4, 5, 2, 1, 0, 8, 6], 5, 7);
    assert Step([2, 4, 5, 2, 1, 0, 8, 6], 6) == [2, 4, 5, 2, 1, 0, 6, 8];
    PassStep([2, 4, 5, 2, 1, 0, 8, 6], [2, 4, 5, 2, 1, 0, 6, 8], 6, 7);
  }

  lemma FixturePass1()
    ensures Pass([2, 4, 5, 2, 1, 0, 6, 8], 0, 6) == [2, 4, 2, 1, 0, 5, 6, 8]
  {
    assert Step([2, 4, 5, 2, 1, 0, 6, 8], 0) == [2, 4, 5, 2, 1, 0, 6, 8];
    PassStep([2, 4, 5, 2, 1, 0, 6, 8], [2, 4, 5, 2, 1, 0, 6, 8], 0, 6);
    assert Step([2, 4, 5, 2, 1, 0, 6, 8], 1) == [2, 4, 5, 2, 1, 0, 6, 8];
    PassStep([2, 4, 5, 2, 1, 0, 6, 8], [2, 4, 5, 2, 1, 0, 6, 8], 1, 6);
    assert Step([2, 4, 5, 2, 1, 0, 6, 8], 2) == [2, 4, 2, 5, 1, 0, 6, 8];
    PassStep([2, 4, 5, 2, 1, 0, 6, 8], [2, 4, 2, 5, 1, 0, 6, 8], 2, 6);
    assert Step([2, 4, 2, 5, 1, 0, 6, 8], 3) == [2, 4, 2, 1, 5, 0, 6, 8];
    PassStep([2, 4, 2, 5, 1, 0, 6, 8], [2, 4, 2, 1, 5, 0, 6, 8], 3, 6);
    assert Step([2, 4, 2, 1, 5, 0, 6, 8], 4) == [2, 4, 2, 1, 0, 5, 6, 8];
    PassStep([2, 4, 2, 1, 5, 0, 6, 8], [2, 4, 2, 1, 0, 5, 6, 8], 4, 6);
    assert Step([2, 4, 2, 1, 0, 5, 6, 8], 5) == [2, 4, 2, 1, 0, 5, 6, 8];
    PassStep([2, 4, 2, 1, 0, 5, 6, 8], [2, 4, 2, 1, 0, 5, 6, 8], 5, 6);
  }

  lemma FixturePass2()
    ensures Pass([2, 4, 2, 1, 0, 5, 6, 8], 0, 5) == [2, 2, 1, 0, 4, 5, 6, 8]
  {
    assert Step([2, 4, 2, 1, 0, 5, 6, 8], 0) == [2, 4, 2, 1, 0, 5, 6, 8];
    PassStep([2, 4, 2, 1, 0, 5, 6, 8], [2, 4, 2, 1, 0, 5, 6, 8], 0, 5);
    assert Step([2, 4, 2, 1, 0, 5, 6, 8], 1) == [2, 2, 4, 1, 0, 5, 6, 8];
    PassStep([2, 4, 2, 1, 0, 5, 6, 8], [2, 2, 4, 1, 0, 5, 6, 8], 1, 5);
    assert Step([2, 2, 4, 1, 0, 5, 6, 8], 2) == [2, 2, 1, 4, 0, 5, 6, 8];
    PassStep([2, 2, 4, 1, 0, 5, 6, 8], [2, 2, 1, 4, 0, 5, 6, 8], 2, 5);
    assert Step([2, 2, 1, 4, 0, 5, 6, 8], 3) == [2, 2, 1, 0, 4, 5, 6, 8];
    PassStep([2, 2, 1, 4, 0, 5, 6, 8], [2, 2, 1, 0, 4, 5, 6, 8], 3, 5);
    assert Step([2, 2, 1, 0, 4, 5, 6, 8], 4) == [2, 2, 1, 0, 4, 5, 6, 8];
    PassStep([2, 2, 1, 0, 4, 5, 6, 8], [2, 2, 1, 0, 4, 5, 6, 8], 4, 5);
  }

  lemma FixturePass3()
    ensures Pass([2, 2, 1, 0, 4, 5, 6, 8], 0, 4) == [2, 1, 0, 2, 4, 5, 6, 8]
  {
    assert Step([2, 2, 1, 0, 4, 5, 6, 8], 0) == [2, 2, 1, 0, 4, 5, 6, 8];
    PassStep([2, 2, 1, 0, 4, 5, 6, 8], [2, 2, 1, 0, 4, 5, 6, 8], 0, 4);
    assert Step([2, 2, 1, 0, 4, 5, 6, 8], 1) == [2, 1, 2, 0, 4, 5, 6, 8];
    PassStep([2, 2, 1, 0, 4, 5, 6, 8], [2, 1, 2, 0, 4, 5, 6, 8], 1, 4);
    assert Step([2, 1, 2, 0, 4, 5, 6, 8], 2) == [2, 1, 0, 2, 4, 5, 6, 8];
    PassStep([2, 1, 2, 0, 4, 5, 6, 8], [2, 1, 0, 2, 4, 5, 6, 8], 2, 4);
    assert Step([2, 1, 0, 2, 4, 5, 6, 8], 3) == [2, 1, 0, 2, 4, 5, 6, 8];
    PassStep([2, 1, 0, 2, 4, 5, 6, 8], [2, 1, 0, 2, 4, 5, 6, 8], 3, 4);
  }

  lemma FixturePass4()
    ensures Pass([2, 1, 0, 2, 4, 5, 6, 8], 0, 3) == [1, 0, 2, 2, 4, 5, 6, 8]
  {
    assert Step([2, 1, 0, 2, 4, 5, 6, 8], 0) == [1, 2, 0, 2, 4, 5, 6, 8];
    PassStep([2, 1, 0, 2, 4, 5, 6, 8], [1, 2, 0, 2, 4, 5, 6, 8], 0, 3);
    assert Step([1, 2, 0, 2, 4, 5, 6, 8], 1) == [1, 0, 2, 2, 4, 5, 6, 8];
    PassStep([1, 2, 0, 2, 4, 5, 6, 8], [1, 0, 2, 2, 4, 5, 6, 8], 1, 3);
    assert Step([1, 0, 2, 2, 4, 5, 6, 8], 2) == [1, 0, 2, 2, 4, 5, 6, 8];
    PassStep([1, 0, 2, 2, 4, 5, 6, 8], [1, 0, 2, 2, 4, 5, 6, 8], 2, 3);
  }

  lemma FixturePass5()
    ensures Pass([1, 0, 2, 2, 4, 5, 6, 8], 0, 2) == [0, 1, 2, 2, 4, 5, 6, 8]
  {
    assert Step([1, 0, 2, 2, 4, 5, 6, 8], 0) == [0, 1, 2, 2, 4, 5, 6, 8];
    PassStep([1, 0, 2, 2, 4, 5, 6, 8], [0, 1, 2, 2, 4, 5, 6, 8], 0, 2);
    assert Step([0, 1, 2, 2, 4, 5, 6, 8], 1) == [0, 1, 2, 2, 4, 5, 6, 8];
    PassStep([0, 1, 2, 2, 4, 5, 6, 8], [0, 1, 2, 2, 4, 5, 6, 8], 1, 2);
  }

  lemma FixturePass6()
    ensures Pass([0, 1, 2, 2, 4, 5, 6, 8], 0, 1) == [0, 1, 2, 2, 4, 5, 6, 8]
  {
    assert Step([0, 1, 2, 2, 4, 5, 6, 8], 0) == [0, 1, 2, 2, 4, 5, 6, 8];
    PassStep([0, 1, 2, 2, 4, 5, 6, 8], [0, 1, 2, 2, 4, 5, 6, 8], 0, 1);
  }

  lemma FixturePass7()
    ensures Pass([0, 1, 2, 2, 4, 5, 6, 8], 0, 0) == [0, 1, 2, 2, 4, 5, 6, 8]
  {

  }

  /** The reference passes sort the fixture list. */
  lemma FixturePasses()
    ensures Passes([5, 2, 4, 8, 2, 1, 0, 6], 0) == [0, 1, 2, 2, 4, 5, 6, 8]
  {
    FixturePass0();
    FixturePass1();
    FixturePass2();
    FixturePass3();
    FixturePass4();
    FixturePass5();
    FixturePass6();
    FixturePass7();
    assert Passes([5, 2, 4, 8, 2, 1, 0, 6], 0) == Passes([2, 4, 5, 2, 1, 0, 6, 8], 1);
    assert Passes([2, 4, 5, 2, 1, 0, 6, 8], 1) == Passes([2, 4, 2, 1, 0, 5, 6, 8], 2);
    assert Passes([2, 4, 2, 1, 0, 5, 6, 8], 2) == Passes([2, 2, 1, 0, 4, 5, 6, 8], 3);
    assert Passes([2, 2, 1, 0, 4, 5, 6, 8], 3) == Passes([2, 1, 0, 2, 4, 5, 6, 8], 4);
    assert Passes([2, 1, 0, 2, 4, 5, 6, 8], 4) == Passes([1, 0, 2, 2, 4, 5, 6, 8], 5);
    assert Passes([1, 0, 2, 2, 4, 5, 6, 8], 5) == Passes([0, 1, 2, 2, 4, 5, 6, 8], 6);
    assert Passes([0, 1, 2, 2, 4, 5, 6, 8], 6) == Passes([0, 1, 2, 2, 4, 5, 6, 8], 7);
    assert Passes([0, 1, 2, 2, 4, 5, 6, 8], 7) == Passes([0, 1, 2, 2, 4, 5, 6, 8], 8);
  }

  /** The fixture list `L = [5, 2, 4, 8, 2, 1, 0, 6]` (the fixture also binds `i`, `j` and `temp` to 0). */
  const FixtureList: seq<Value> := [VInt(5), VInt(2), VInt(4), VInt(8), VInt(2), VInt(1), VInt(0), VInt(6)]

  /** The list the test expects after sorting. */
  const SortedFixtureList: seq<Value> := [VInt(0), VInt(1), VInt(2), VInt(2), VInt(4), VInt(5), VInt(6), VInt(8)]

  /** On any list of eight integers the program computes the reference passes. */
  lemma ProgramComputesPasses(st: State, xs: seq<int>)
    requires |xs| == 8 && st.list == Some(Lift(xs))
    ensures var o := Run(OuterLoop, st);
            && o.result == Ok(VNone)
            && o.st.list == Some(Lift(Passes(xs, 0)))
  {
    LoopEntry("i", Constant(8), InnerLoop, 8, st);
    OuterIterations(st, xs, 0);
  }

  /** The sorted fixture list holds the same elements as the fixture list. */
  lemma SortedFixtureIsPermutation()
    ensures multiset(SortedFixtureList) == multiset(FixtureList)
  {
  }

  /**
   * Running the program in a context whose list is the fixture list, whatever
   * its bindings, leaves `L` sorted: `[0, 1, 2, 2, 4, 5, 6, 8]`, a permutation
   * of the input.
   */
  lemma BubbleSortSortsFixture(st: State)
    requires st.list == Some(FixtureList)
    ensures var o := Run(OuterLoop, st);
            && o.result == Ok(VNone)
            && o.st.list == Some(SortedFixtureList)
  {
    FixtureListLifts();
    ProgramComputesPasses(st, [5, 2, 4, 8, 2, 1, 0, 6]);
    FixturePasses();
    SortedListLifts();
  }

  lemma FixtureListLifts()
    ensures FixtureList == Lift([5, 2, 4, 8, 2, 1, 0, 6])
  {
  }

  lemma SortedListLifts()
    ensures Lift([0, 1, 2, 2, 4, 5, 6, 8]) == SortedFixtureList
  {
  }

  /** The program leaves in `L` a permutation of the fixture list. */
  lemma BubbleSortPermutesFixture(st: State)
    requires st.list == Some(FixtureList)
    ensures Run(OuterLoop, st).st.list.Some?
    ensures multiset(Run(OuterLoop, st).st.list.value) == multiset(FixtureList)
  {
    BubbleSortSortsFixture(st);
    SortedFixtureIsPermutation();
    SameListSameElements(Run(OuterLoop, st).st.list, SortedFixtureList, FixtureList);
  }

  lemma SameListSameElements(l: Option<seq<Value>>, ys: seq<Value>, zs: seq<Value>)
    requires l == Some(ys) && multiset(ys) == multiset(zs)
    ensures l.Some? && multiset(l.value) == multiset(zs)
  {
  }
}
