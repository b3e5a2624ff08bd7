/** Properties of the evaluator `Nodes.Run` and of the rendering `Nodes.Repr`. */
module NodeLemmas {
  import opened Wrappers
  import opened Nodes
  import opened ParenBalance

  /** Trees built only from the expression nodes Constant, Variable, ListGet and BinOp. */
  predicate IsPureExpr(n: Node)
  {
    match n
    case Constant(_) => true
    case Variable(_) => true
    case ListGet(e) => IsPureExpr(e)
    case BinOp(_, l, r) => IsPureExpr(l) && IsPureExpr(r)
    case _ => false
  }

  /** Expression trees that do not read the list either. */
  predicate IsListFree(n: Node)
  {
    match n
    case Constant(_) => true
    case Variable(_) => true
    case BinOp(_, l, r) => IsListFree(l) && IsListFree(r)
    case _ => false
  }

  /** Evaluating an expression tree changes neither the bindings nor the list. */
  lemma {:induction false} PureExprLeavesStateUnchanged(n: Node, st: State)
    requires IsPureExpr(n)
    ensures Run(n, st).st == st
  {
    match n
    case ListGet(e) => PureExprLeavesStateUnchanged(e, st);
    case BinOp(_, l, r) =>
      PureExprLeavesStateUnchanged(l, st);
      PureExprLeavesStateUnchanged(r, st);
    case _ =>
  }

  /** An expression tree that does not read the list gives a result that depends on the bindings alone. */
  lemma {:induction false} ListFreeDependsOnBindings(n: Node, s1: State, s2: State)
    requires IsListFree(n)
    requires s1.vars == s2.vars
    ensures Run(n, s1).result == Run(n, s2).result
  {
    match n
    case BinOp(_, l, r) =>
      assert IsPureExpr(l) && IsPureExpr(r) by { ListFreeIsPure(l); ListFreeIsPure(r); }
      PureExprLeavesStateUnchanged(l, s1);
      PureExprLeavesStateUnchanged(l, s2);
      ListFreeDependsOnBindings(l, s1, s2);
      ListFreeDependsOnBindings(r, s1, s2);
    case _ =>
  }

  lemma {:induction false} ListFreeIsPure(n: Node)
    requires IsListFree(n)
    ensures IsPureExpr(n)
  {
    match n
    case BinOp(_, l, r) => ListFreeIsPure(l); ListFreeIsPure(r);
    case _ =>
  }

  /**
   * ListSet evaluates its index and its value and stores the value at that
   * index: every other position of the list and every binding is unchanged.
   */
  lemma ListSetEffect(ie: Node, ve: Node, st: State)
    requires IsPureExpr(ie) && IsPureExpr(ve)
    requires st.list.Some?
    requires Run(ie, st).result.Ok? && Run(ve, st).result.Ok?
    requires ListIndex(Run(ie, st).result.value, |st.list.value|).Ok?
    ensures var k := ListIndex(Run(ie, st).result.value, |st.list.value|).value;
            var xs := st.list.value;
            var o := Run(ListSet(ie, ve), st);
            && o.result == Ok(VNone)
            && o.st.vars == st.vars
            && o.st.list.Some? && |o.st.list.value| == |xs|
            && o.st.list.value[k] == Run(ve, st).result.value
            && (forall p :: 0 <= p < |xs| && p != k ==> o.st.list.value[p] == xs[p])
  {
    PureExprLeavesStateUnchanged(ie, st);
    PureExprLeavesStateUnchanged(ve, st);
  }

  /** An index outside the list makes ListSet fail without changing the context. */
  lemma ListSetOutOfRange(ie: Node, ve: Node, st: State)
    requires IsPureExpr(ie) && IsPureExpr(ve)
    requires st.list.Some?
    requires Run(ie, st).result.Ok? && Run(ve, st).result.Ok?
    requires AsInt(Run(ie, st).result.value).Some?
    requires var i := AsInt(Run(ie, st).result.value).value;
             i < -|st.list.value| || |st.list.value| <= i
    ensures Run(ListSet(ie, ve), st) == Outcome(Err(IndexOutOfRange), st)
  {
    PureExprLeavesStateUnchanged(ie, st);
    PureExprLeavesStateUnchanged(ve, st);
  }

  /** Swap leaves the bindings alone and replaces the list by the one with the two designated cells exchanged. */
  lemma SwapResult(e1: Node, e2: Node, st: State)
    requires IsPureExpr(e1) && IsPureExpr(e2)
    requires st.list.Some?
    requires Run(e1, st).result.Ok? && Run(e2, st).result.Ok?
    requires ListIndex(Run(e1, st).result.value, |st.list.value|).Ok?
    requires ListIndex(Run(e2, st).result.value, |st.list.value|).Ok?
    ensures var xs := st.list.value;
            var i := ListIndex(Run(e1, st).result.value, |xs|).value;
            var j := ListIndex(Run(e2, st).result.value, |xs|).value;
            Run(Swap(e1, e2), st) == Outcome(Ok(VNone), State(st.vars, Some(SwapAt(xs, i, j))))
  {
    PureExprLeavesStateUnchanged(e1, st);
    PureExprLeavesStateUnchanged(e2, st);
  }

  /** Swap exchanges the two designated cells and changes nothing else; the list keeps its elements. */
  lemma SwapEffect(e1: Node, e2: Node, st: State)
    requires IsPureExpr(e1) && IsPureExpr(e2)
    requires st.list.Some?
    requires Run(e1, st).result.Ok? && Run(e2, st).result.Ok?
    requires ListIndex(Run(e1, st).result.value, |st.list.value|).Ok?
    requires ListIndex(Run(e2, st).result.value, |st.list.value|).Ok?
    ensures var xs := st.list.value;
            var i := ListIndex(Run(e1, st).result.value, |xs|).value;
            var j := ListIndex(Run(e2, st).result.value, |xs|).value;
            var o := Run(Swap(e1, e2), st);
            && o.result == Ok(VNone)
            && o.st.vars == st.vars
            && o.st.list.Some?
            && |o.st.list.value| == |xs|
            && o.st.list.value[i] == xs[j] && o.st.list.value[j] == xs[i]
            && (forall p :: 0 <= p < |xs| && p != i && p != j ==> o.st.list.value[p] == xs[p])
            && multiset(o.st.list.value) == multiset(xs)
  {
    SwapResult(e1, e2, st);
  }

  /** Swapping the same two cells twice restores the context, when the indices do not read the list. */
  lemma SwapTwiceRestores(e1: Node, e2: Node, st: State)
    requires IsListFree(e1) && IsListFree(e2)
    requires st.list.Some?
    requires Run(e1, st).result.Ok? && Run(e2, st).result.Ok?
    requires ListIndex(Run(e1, st).result.value, |st.list.value|).Ok?
    requires ListIndex(Run(e2, st).result.value, |st.list.value|).Ok?
    ensures Run(Swap(e1, e2), Run(Swap(e1, e2), st).st) == Outcome(Ok(VNone), st)
  {
    ListFreeIsPure(e1);
    ListFreeIsPure(e2);
    var xs := st.list.value;
    var i := ListIndex(Run(e1, st).result.value, |xs|).value;
    var j := ListIndex(Run(e2, st).result.value, |xs|).value;
    SwapResult(e1, e2, st);
    var mid := State(st.vars, Some(SwapAt(xs, i, j)));
    ListFreeDependsOnBindings(e1, st, mid);
    ListFreeDependsOnBindings(e2, st, mid);
    SwapResult(e1, e2, mid);
    assert SwapAt(SwapAt(xs, i, j), i, j) == xs;
  }

  /** Assign binds the name to the value, creating the binding if absent; nothing else changes. */
  lemma AssignEffect(x: string, e: Node, st: State)
    requires IsPureExpr(e) && x != ListName
    requires Run(e, st).result.Ok?
    ensures var o := Run(Assign(x, e), st);
            && o.result == Ok(VNone)
            && o.st.list == st.list
            && x in o.st.vars && o.st.vars[x] == Run(e, st).result.value
            && (forall y :: y != x ==> (y in o.st.vars <==> y in st.vars))
            && (forall y :: y != x && y in st.vars ==> o.st.vars[y] == st.vars[y])
  {
    PureExprLeavesStateUnchanged(e, st);
  }

  /**
   * A conditional evaluates its condition and then exactly one branch: the
   * context it leaves is the one the taken branch leaves.
   */
  lemma IfTakesOneBranch(c: Node, t: Node, e: Node, st: State)
    requires IsPureExpr(c)
    requires Run(c, st).result.Ok?
    ensures var taken := if Truthy(Run(c, st).result.value) then t else e;
            var o := Run(If(c, t, e), st);
            && o.st == Run(taken, st).st
            && (o.result.Ok? <==> Run(taken, st).result.Ok?)
            && (o.result.Ok? ==> o.result.value == VNone)
  {
    PureExprLeavesStateUnchanged(c, st);
  }

  /** A loop whose limit is not positive runs no iteration and leaves the context untouched. */
  lemma LoopZeroIterations(x: string, lim: Node, body: Node, st: State)
    requires IsPureExpr(lim)
    requires Run(lim, st).result.Ok? && AsInt(Run(lim, st).result.value).Some?
    requires AsInt(Run(lim, st).result.value).value <= 0
    ensures Run(Loop(x, lim, body), st) == Outcome(Ok(VNone), st)
  {
    PureExprLeavesStateUnchanged(lim, st);
  }

  /** One iteration of a loop: bind the loop variable to `i`, then run the body. */
  function Iteration(x: string, body: Node, i: nat, st: State): Outcome
  {
    if x == ListName then Outcome(Err(ReservedName), st)
    else
      var o := Run(body, st.(vars := st.vars[x := VInt(i)]));
      if o.result.Err? then o else Outcome(Ok(VNone), o.st)
  }

  /**
   * Running iterations `i .. n` is running iterations `i .. n-1` and then, if
   * none failed, iteration `n` with the loop variable bound to `n`, whatever
   * the body did to it: the body runs once per value of the range, in order.
   */
  lemma {:induction false} LoopRunsLastIteration(x: string, body: Node, i: nat, n: nat, st: State)
    requires i <= n
    ensures RunLoop(x, body, i, n + 1, st)
         == (var o := RunLoop(x, body, i, n, st);
             if o.result.Err? then o else Iteration(x, body, n, o.st))
    decreases n - i
  {
    if i < n && x != ListName {
      var o := Run(body, st.(vars := st.vars[x := VInt(i)]));
      if o.result.Ok? {
        LoopRunsLastIteration(x, body, i + 1, n, o.st);
      }
    }
  }

  /** The body of a counting loop: `c = (c + 1)`. */
  function Increment(c: string): Node
  {
    Assign(c, BinOp("+", Variable(c), Constant(1)))
  }

  /**
   * A loop whose body increments a counter raises it by exactly max(limit, 0),
   * and leaves the loop variable at its last value limit - 1.
   */
  lemma {:induction false} CountingLoop(x: string, c: string, i: nat, count: int, st: State)
    requires x != ListName && c != ListName && x != c
    requires c in st.vars && st.vars[c].VInt?
    requires i <= count
    ensures var o := RunLoop(x, Increment(c), i, count, st);
            && o.result == Ok(VNone)
            && o.st.list == st.list
            && c in o.st.vars && o.st.vars[c] == VInt(st.vars[c].i + (count - i))
            && (i < count ==> x in o.st.vars && o.st.vars[x] == VInt(count - 1))
            && (i == count ==> o.st == st)
    decreases count - i
  {
    if i < count {
      var s1 := st.(vars := st.vars[x := VInt(i)]);
      var sum := BinOp("+", Variable(c), Constant(1));
      assert Run(Variable(c), s1) == Outcome(Ok(st.vars[c]), s1);
      assert Run(sum, s1) == Outcome(Ok(VInt(st.vars[c].i + 1)), s1);
      var o := Run(Increment(c), s1);
      assert o == Outcome(Ok(VNone), s1.(vars := s1.vars[c := VInt(st.vars[c].i + 1)]));
      CountingLoop(x, c, i + 1, count, o.st);
    }
  }

  /** `for x in range(n): { c = (c + 1) }` raises `c` by exactly max(n, 0). */
  lemma CountingLoopRunsMaxTimes(x: string, c: string, n: int, st: State)
    requires x != ListName && c != ListName && x != c
    requires c in st.vars && st.vars[c].VInt?
    ensures var o := Run(Loop(x, Constant(n), Increment(c)), st);
            && o.result == Ok(VNone)
            && c in o.st.vars
            && o.st.vars[c] == VInt(st.vars[c].i + (if n > 0 then n else 0))
  {
    if n > 0 {
      CountingLoop(x, c, 0, n, st);
    }
  }

  // ----- rendering -----

  function DigitValue(ch: char): nat
  {
    if '0' <= ch <= '9' then ch as int - '0' as int else 0
  }

  /** Reads a string of decimal digits back as a number. */
  function ParseNat(s: string): nat
    decreases |s|
  {
    if s == [] then 0 else ParseNat(s[..|s| - 1]) * 10 + DigitValue(s[|s| - 1])
  }

  /** Reads back the rendering of an integer, with an optional leading minus. */
  function ParseInt(s: string): int
  {
    if |s| > 0 && s[0] == '-' then -(ParseNat(s[1..]) as int) else ParseNat(s)
  }

  /** The rendering of a natural number is a non-empty string of digits that reads back as the number. */
  lemma {:induction false} NatToStringRoundTrip(n: nat)
    ensures var s := NatToString(n);
            && |s| > 0
            && (forall p :: 0 <= p < |s| ==> '0' <= s[p] <= '9')
            && ParseNat(s) == n
    decreases n
  {
    if n < 10 {
      DigitRoundTrip(n);
      assert ParseNat(NatToString(n)) == ParseNat([]) * 10 + DigitValue(DigitChar(n));
    } else {
      NatToStringRoundTrip(n / 10);
      DigitRoundTrip(n % 10);
      var pre := NatToString(n / 10);
      var s := NatToString(n);
      assert s == pre + [DigitChar(n % 10)];
      assert s[..|s| - 1] == pre;
      assert ParseNat(s) == ParseNat(pre) * 10 + DigitValue(DigitChar(n % 10));
      assert forall p :: 0 <= p < |pre| ==> s[p] == pre[p];
    }
  }

  /** A digit is rendered as a decimal digit character that reads back as the digit. */
  lemma DigitRoundTrip(d: nat)
    requires d < 10
    ensures '0' <= DigitChar(d) <= '9' && DigitValue(DigitChar(d)) == d
  {
  }

  /** The rendering of a constant reads back as the constant. */
  lemma IntToStringRoundTrip(k: int)
    ensures ParseInt(IntToString(k)) == k
  {
    if k < 0 {
      var digits := NatToString(-k);
      NatToStringRoundTrip(-k);
      assert IntToString(k) == "-" + digits;
      assert ("-" + digits)[0] == '-' && ("-" + digits)[1..] == digits;
    } else {
      var digits := NatToString(k);
      NatToStringRoundTrip(k);
      assert digits[0] != '-';
    }
  }

  /** No name or operator in the tree contains a parenthesis. */
  predicate NamesFreeOfParens(n: Node)
  {
    match n
    case Constant(_) => true
    case Variable(x) => '(' !in x && ')' !in x
    case ListGet(e) => NamesFreeOfParens(e)
    case ListSet(ie, ve) => NamesFreeOfParens(ie) && NamesFreeOfParens(ve)
    case Swap(e1, e2) => NamesFreeOfParens(e1) && NamesFreeOfParens(e2)
    case Assign(x, e) => '(' !in x && ')' !in x && NamesFreeOfParens(e)
    case BinOp(op, l, r) => '(' !in op && ')' !in op && NamesFreeOfParens(l) && NamesFreeOfParens(r)
    case If(c, t, e) => NamesFreeOfParens(c) && NamesFreeOfParens(t) && NamesFreeOfParens(e)
    case Loop(x, lim, body) => '(' !in x && ')' !in x && NamesFreeOfParens(lim) && NamesFreeOfParens(body)
  }

  /** The rendering of an integer contains no parenthesis. */
  lemma IntToStringFreeOfParens(k: int)
    ensures '(' !in IntToString(k) && ')' !in IntToString(k)
  {
    var m: nat := if k < 0 then -k else k;
    NatToStringRoundTrip(m);
    var s := NatToString(m);
    assert forall p :: 0 <= p < |s| ==> s[p] != '(' && s[p] != ')';
    if k < 0 {
      assert IntToString(k) == "-" + s;
      assert forall p :: 0 <= p < |"-" + s| ==> ("-" + s)[p] != '(' && ("-" + s)[p] != ')' by {
        forall p | 0 <= p < |"-" + s| ensures ("-" + s)[p] != '(' && ("-" + s)[p] != ')' {
          if p > 0 { assert ("-" + s)[p] == s[p - 1]; }
        }
      }
    }
  }

  /**
   * The rendering of a tree is well nested, provided its names and operators
   * contain no parentheses.
   */
  lemma {:induction false} ReprNested(n: Node)
    requires NamesFreeOfParens(n)
    ensures Nested(Repr(n))
  {
    match n
    case Constant(k) =>
      IntToStringFreeOfParens(k);
      NestedFree(Repr(n));
    case Variable(x) =>
      NestedFree(x);
    case ListGet(e) =>
      ReprNested(e);
      NestedListForm(Repr(e), "");
    case ListSet(ie, ve) =>
      ReprNested(ie);
      ReprNested(ve);
      NestedListForm(Repr(ie), Repr(ve));
    case Swap(e1, e2) =>
      ReprNested(e1);
      ReprNested(e2);
      NestedSwapForm(Repr(e1), Repr(e2));
    case Assign(x, e) =>
      ReprNested(e);
      NestedFree(x);
      NestedAssignForm(x, Repr(e));
    case BinOp(op, l, r) =>
      ReprNested(l);
      ReprNested(r);
      NestedFree(op);
      NestedBinOpForm(Repr(l), op, Repr(r));
    case If(c, t, e) =>
      ReprNested(c);
      ReprNested(t);
      ReprNested(e);
      NestedIfForm(Repr(c), Repr(t), Repr(e));
    case Loop(x, lim, body) =>
      ReprNested(lim);
      ReprNested(body);
      NestedFree(x);
      NestedLoopForm(x, Repr(lim), Repr(body));
  }

  /**
   * The rendering of such a tree opens as many parentheses as it closes, and
   * no prefix of it closes a parenthesis it has not opened.
   */
  lemma ReprBalanced(n: Node)
    requires NamesFreeOfParens(n)
    ensures Balance(Repr(n)) == 0
    ensures forall k :: 0 <= k <= |Repr(n)| ==> Balance(Repr(n)[..k]) >= 0
  {
    ReprNested(n);
    NestedPrefixes(Repr(n));
  }

}
