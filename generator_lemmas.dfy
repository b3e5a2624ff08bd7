/** What the generator's output guarantees when it is run. */
module RandomTreeGenerationLemmas {
  import opened Wrappers
  import opened Nodes
  import opened RandomTreeGeneration

  /** Every operator in the tree is one the evaluator supports. */
  predicate OpsSupported(n: Node)
  {
    match n
    case Constant(_) => true
    case Variable(_) => true
    case ListGet(i) => OpsSupported(i)
    case ListSet(i, e) => OpsSupported(i) && OpsSupported(e)
    case Swap(i, j) => OpsSupported(i) && OpsSupported(j)
    case Assign(_, e) => OpsSupported(e)
    case BinOp(op, l, r) => op in {"+", "-", ">", "<", "=="} && OpsSupported(l) && OpsSupported(r)
    case If(c, t, e) => OpsSupported(c) && OpsSupported(t) && OpsSupported(e)
    case Loop(_, lim, b) => OpsSupported(lim) && OpsSupported(b)
  }

  predicate RaisesUnsupported(o: Outcome)
  {
    o.result.Err? && o.result.error.UnsupportedOp?
  }

  lemma {:induction false} ExprOpsSupported(n: Node)
    requires IsExpr(n)
    ensures OpsSupported(n)
  {
    match n
    case BinOp(_, l, r) =>
      ExprOpsSupported(l);
      ExprOpsSupported(r);
    case _ =>
  }

  lemma {:induction false} StmtOpsSupported(n: Node)
    requires IsStmt(n)
    ensures OpsSupported(n)
  {
    match n
    case Assign(_, e) => ExprOpsSupported(e);
    case ListSet(_, e) => ExprOpsSupported(e);
    case Swap(_, _) =>
    case If(c, t, e) =>
      ExprOpsSupported(c.left);
      ExprOpsSupported(c.right);
      StmtOpsSupported(t);
      StmtOpsSupported(e);
    case Loop(_, lim, b) =>
      ExprOpsSupported(lim);
      StmtOpsSupported(b);
  }

  /** A well-sorted tree uses only supported operators. */
  lemma SortedOpsSupported(n: Node, sort: string)
    requires HasSort(n, sort)
    ensures OpsSupported(n)
  {
    if sort == ExprSort {
      ExprOpsSupported(n);
    } else if sort == BoolSort {
      ExprOpsSupported(n.left);
      ExprOpsSupported(n.right);
    } else {
      StmtOpsSupported(n);
    }
  }

  /** Evaluating a tree with supported operators never raises the unsupported-operator error. */
  lemma {:induction false} SupportedNeverRaisesUnsupported(n: Node, st: State)
    requires OpsSupported(n)
    ensures !RaisesUnsupported(Run(n, st))
    decreases n, 0
  {
    match n
    case Constant(_) =>
    case Variable(_) =>
    case ListGet(e) =>
      SupportedNeverRaisesUnsupported(e, st);
    case ListSet(ie, ve) =>
      SupportedNeverRaisesUnsupported(ie, st);
      SupportedNeverRaisesUnsupported(ve, Run(ie, st).st);
    case Swap(e1, e2) =>
      SupportedNeverRaisesUnsupported(e1, st);
      SupportedNeverRaisesUnsupported(e2, Run(e1, st).st);
    case Assign(_, e) =>
      SupportedNeverRaisesUnsupported(e, st);
    case BinOp(op, le, re) =>
      SupportedNeverRaisesUnsupported(le, st);
      SupportedNeverRaisesUnsupported(re, Run(le, st).st);
    case If(c, t, e) =>
      var oc := Run(c, st);
      SupportedNeverRaisesUnsupported(c, st);
      SupportedNeverRaisesUnsupported(t, oc.st);
      SupportedNeverRaisesUnsupported(e, oc.st);
    case Loop(x, lim, body) =>
      var ol := Run(lim, st);
      SupportedNeverRaisesUnsupported(lim, st);
      if ol.result.Ok? && AsInt(ol.result.value).Some? {
        LoopNeverRaisesUnsupported(x, body, 0, AsInt(ol.result.value).value, ol.st);
      }
  }

  lemma {:induction false} LoopNeverRaisesUnsupported(x: string, body: Node, i: nat, count: int, st: State)
    requires OpsSupported(body)
    ensures !RaisesUnsupported(RunLoop(x, body, i, count, st))
    decreases body, 1, count - i
  {
    if count > i && x != ListName {
      var st' := st.(vars := st.vars[x := VInt(i)]);
      SupportedNeverRaisesUnsupported(body, st');
      if Run(body, st').result.Ok? {
        LoopNeverRaisesUnsupported(x, body, i + 1, count, Run(body, st').st);
      }
    }
  }

  /** No generated program, run in any context, raises the unsupported-operator error. */
  lemma GeneratedNeverRaisesUnsupported(maxDepth: int, vars: seq<string>, depth: int, sort: string,
                                        rng: Stream, pos: nat, st: State)
    requires Generate(maxDepth, vars, depth, sort, rng, pos).Ok?
    ensures !RaisesUnsupported(Run(Generate(maxDepth, vars, depth, sort, rng, pos).value.0, st))
  {
    var n := Generate(maxDepth, vars, depth, sort, rng, pos).value.0;
    SortedOpsSupported(n, sort);
    SupportedNeverRaisesUnsupported(n, st);
  }

  /**
   * With no variables a statement cannot be generated: every statement
   * form eventually draws a variable.
   */
  lemma {:induction false} NoVariablesNoStatement(maxDepth: int, depth: int, rng: Stream, pos: nat)
    ensures Generate(maxDepth, [], depth, StmtSort, rng, pos).Err?
    decreases Budget(depth, maxDepth), 1
  {
    if !DividesByZero(depth, maxDepth) && !(ForcedLeaf(depth, maxDepth) || Below(rng(pos))) {
      NoVariablesNoCompoundStatement(maxDepth, depth, rng, pos + 1);
    }
  }

  lemma {:induction false} NoVariablesNoCompoundStatement(maxDepth: int, depth: int, rng: Stream, pos: nat)
    requires depth < maxDepth && maxDepth != 0
    ensures GenerateStatement(maxDepth, [], depth, rng, pos).Err?
    decreases Budget(depth, maxDepth), 0
  {
    var c := Generate(maxDepth, [], depth + 1, BoolSort, rng, pos + 1);
    if c.Ok? {
      NoVariablesNoStatement(maxDepth, depth + 1, rng, c.value.1);
    }
  }

  /**
   * At or past the maximal depth, including a maximal depth of 0, the
   * terminal productions are the only ones taken.
   */
  lemma ForcedLeafIsTerminal(maxDepth: int, vars: seq<string>, depth: int, sort: string, rng: Stream, pos: nat)
    requires ForcedLeaf(depth, maxDepth)
    requires Generate(maxDepth, vars, depth, sort, rng, pos).Ok?
    ensures var n := Generate(maxDepth, vars, depth, sort, rng, pos).value.0;
            && (sort == ExprSort ==> n.Constant? || n.Variable? || (n.ListGet? && n.index.Variable?))
            && (sort == BoolSort ==> n.BinOp? && n.op == ">")
            && (sort == StmtSort ==> n.Assign?)
  {
  }
}
