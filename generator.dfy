/**
 * The depth-bounded, sort-directed random program generator. Every random
 * draw is read from an explicit oracle `rng` at a position that the
 * generator threads through the recursion and hands back with the tree.
 */
module RandomTreeGeneration {
  import opened Wrappers
  import opened Nodes

  /** The errors generation can raise. */
  datatype GenError =
    | UnsupportedReturnType(sort: string)  // a sort other than Expr, Bool, Stmt
    | EmptyChoice                          // a variable drawn from an empty list
    | DivisionByZero                       // the leaf ramp divides by `max_depth == 0`

  const ExprSort: string := "Expr"
  const BoolSort: string := "Bool"
  const StmtSort: string := "Stmt"

  predicate IsSort(sort: string)
  {
    sort == ExprSort || sort == BoolSort || sort == StmtSort
  }

  /**
   * At or below the maximal depth the leaf probability is 1.0, so the
   * terminal branch is always taken and the ramp (which divides) is not used.
   */
  predicate ForcedLeaf(depth: int, maxDepth: int)
  {
    depth >= maxDepth
  }

  /** The ramp `current_depth / max_depth` is computed, and `max_depth` is zero. */
  predicate DividesByZero(depth: int, maxDepth: int)
  {
    !ForcedLeaf(depth, maxDepth) && maxDepth == 0
  }

  /** How many more levels may be non-terminal. */
  function Budget(depth: int, maxDepth: int): nat
  {
    if depth < maxDepth then maxDepth - depth else 0
  }

  function Rank(sort: string): nat
  {
    if sort == ExprSort then 0 else 1
  }

  /** `random.choice(variables)`: fails on an empty list. */
  function Choose(vars: seq<string>, d: nat): (r: Result<string, GenError>)
    ensures r.Ok? <==> |vars| > 0
    ensures r.Ok? ==> r.value in vars
  {
    if |vars| == 0 then Err(EmptyChoice) else Ok(Pick(vars, d))
  }

  /** Well-sortedness: the shapes an `Expr` may take. Indices are variables. */
  predicate IsExpr(n: Node)
  {
    match n
    case Constant(_) => true
    case Variable(_) => true
    case ListGet(i) => i.Variable?
    case BinOp(op, l, r) => (op == "+" || op == "-") && IsExpr(l) && IsExpr(r)
    case _ => false
  }

  /** A `Bool` is a comparison of two expressions. */
  predicate IsBool(n: Node)
  {
    n.BinOp? && (n.op == ">" || n.op == "<" || n.op == "==") && IsExpr(n.left) && IsExpr(n.right)
  }

  /** The shapes a `Stmt` may take, with children of the right sorts. */
  predicate IsStmt(n: Node)
  {
    match n
    case Assign(_, e) => IsExpr(e)
    case ListSet(i, e) => i.Variable? && IsExpr(e)
    case Swap(i, j) => i.Variable? && j.Variable?
    case If(c, t, e) => IsBool(c) && IsStmt(t) && IsStmt(e)
    case Loop(_, lim, b) => IsExpr(lim) && IsStmt(b)
    case _ => false
  }

  predicate HasSort(n: Node, sort: string)
  {
    if sort == ExprSort then IsExpr(n)
    else if sort == BoolSort then IsBool(n)
    else sort == StmtSort && IsStmt(n)
  }

  /** Every variable read, assigned or looped over is one of `vars`. */
  predicate NamesFrom(n: Node, vars: seq<string>)
  {
    match n
    case Constant(_) => true
    case Variable(x) => x in vars
    case ListGet(i) => NamesFrom(i, vars)
    case ListSet(i, e) => NamesFrom(i, vars) && NamesFrom(e, vars)
    case Swap(i, j) => NamesFrom(i, vars) && NamesFrom(j, vars)
    case Assign(x, e) => x in vars && NamesFrom(e, vars)
    case BinOp(_, l, r) => NamesFrom(l, vars) && NamesFrom(r, vars)
    case If(c, t, e) => NamesFrom(c, vars) && NamesFrom(t, vars) && NamesFrom(e, vars)
    case Loop(x, lim, b) => x in vars && NamesFrom(lim, vars) && NamesFrom(b, vars)
  }

  /** Every constant lies in [lo, hi]. */
  predicate ConstantsWithin(n: Node, lo: int, hi: int)
  {
    match n
    case Constant(k) => lo <= k <= hi
    case Variable(_) => true
    case ListGet(i) => ConstantsWithin(i, lo, hi)
    case ListSet(i, e) => ConstantsWithin(i, lo, hi) && ConstantsWithin(e, lo, hi)
    case Swap(i, j) => ConstantsWithin(i, lo, hi) && ConstantsWithin(j, lo, hi)
    case Assign(_, e) => ConstantsWithin(e, lo, hi)
    case BinOp(_, l, r) => ConstantsWithin(l, lo, hi) && ConstantsWithin(r, lo, hi)
    case If(c, t, e) => ConstantsWithin(c, lo, hi) && ConstantsWithin(t, lo, hi) && ConstantsWithin(e, lo, hi)
    case Loop(_, lim, b) => ConstantsWithin(lim, lo, hi) && ConstantsWithin(b, lo, hi)
  }

  function Max(a: nat, b: nat): nat { if a < b then b else a }

  function Height(n: Node): nat
  {
    match n
    case Constant(_) => 1
    case Variable(_) => 1
    case ListGet(i) => 1 + Height(i)
    case ListSet(i, e) => 1 + Max(Height(i), Height(e))
    case Swap(i, j) => 1 + Max(Height(i), Height(j))
    case Assign(_, e) => 1 + Height(e)
    case BinOp(_, l, r) => 1 + Max(Height(l), Height(r))
    case If(c, t, e) => 1 + Max(Height(c), Max(Height(t), Height(e)))
    case Loop(_, lim, b) => 1 + Max(Height(lim), Height(b))
  }

  /** What a successful generation promises about the tree and the oracle position. */
  predicate Generated(g: (Node, nat), maxDepth: int, vars: seq<string>, depth: int, sort: string, pos: nat)
  {
    && g.1 > pos
    && HasSort(g.0, sort)
    && NamesFrom(g.0, vars)
    && ConstantsWithin(g.0, 0, 10)
    && Height(g.0) <= Budget(depth, maxDepth) + (if sort == ExprSort then 2 else 3)
  }

  /**
   * The terminal `Expr` choice at `pos`: a constant below the 0.4 coin, a
   * variable below the 0.7 coin, a list read otherwise.
   */
  function TerminalExpr(vars: seq<string>, rng: Stream, pos: nat): (r: Result<(Node, nat), GenError>)
    ensures r.Ok? ==> && r.value.1 > pos && IsExpr(r.value.0) && NamesFrom(r.value.0, vars)
                      && ConstantsWithin(r.value.0, 0, 10) && Height(r.value.0) <= 2
    ensures r.Ok? ==> || r.value.0.Constant? || r.value.0.Variable?
                      || (r.value.0.ListGet? && r.value.0.index.Variable?)
    ensures r.Ok? ==> (r.value.0.Constant? <==> Below(rng(pos)))
    ensures r.Err? ==> r.error == EmptyChoice && |vars| == 0
  {
    if Below(rng(pos)) then Ok((Constant(RandInt(0, 10, rng(pos + 1))), pos + 2))
    else if Below(rng(pos + 1)) then
      var x := Choose(vars, rng(pos + 2));
      if x.Err? then Err(x.error) else
      Ok((Variable(x.value), pos + 3))
    else
      var x := Choose(vars, rng(pos + 2));
      if x.Err? then Err(x.error) else
      Ok((ListGet(Variable(x.value)), pos + 3))
  }

  /**
   * `generate_random_tree(max_depth, variables, current_depth, return_type)`
   * reading its draws from `rng` at `pos`, `pos + 1`, ...; the result carries
   * the first unread position. The first draw decides leaf or not (a forced
   * leaf still draws); the 0.4 and 0.7 thresholds of the terminal `Expr`
   * choice are coins of the oracle too.
   */
  function Generate(maxDepth: int, vars: seq<string>, depth: int, sort: string, rng: Stream, pos: nat)
    : (r: Result<(Node, nat), GenError>)
    ensures r.Ok? ==> Generated(r.value, maxDepth, vars, depth, sort, pos)
    ensures r.Ok? ==> IsSort(sort) && !DividesByZero(depth, maxDepth)
    ensures DividesByZero(depth, maxDepth) ==> r == Err(DivisionByZero)
    ensures !DividesByZero(depth, maxDepth) && !IsSort(sort) ==> r == Err(UnsupportedReturnType(sort))
    ensures !DividesByZero(depth, maxDepth) && IsSort(sort) && |vars| > 0 ==> r.Ok?
    decreases Budget(depth, maxDepth), Rank(sort), 2
  {
    if DividesByZero(depth, maxDepth) then Err(DivisionByZero)
    else
      var leaf := ForcedLeaf(depth, maxDepth) || Below(rng(pos));
      var p := pos + 1;
      if leaf && sort == ExprSort then TerminalExpr(vars, rng, p)
      else if leaf && sort == BoolSort then GenerateBinOp(">", maxDepth, vars, depth + 1, rng, p)
      else if leaf && sort == StmtSort then
        var x := Choose(vars, rng(p));
        if x.Err? then Err(x.error) else
        var e := Generate(maxDepth, vars, depth + 1, ExprSort, rng, p + 1);
        Ok((Assign(x.value, e.value.0), e.value.1))
      else if !IsSort(sort) then Err(UnsupportedReturnType(sort))
      else
        // not a leaf: the ramp was below 1.0, so there is depth left
        assert depth < maxDepth;
        if sort == ExprSort then GenerateBinOp(Pick(["+", "-"], rng(p)), maxDepth, vars, depth + 1, rng, p + 1)
        else if sort == BoolSort then GenerateBinOp(Pick([">", "<", "=="], rng(p)), maxDepth, vars, depth + 1, rng, p + 1)
        else
          GenerateStatement(maxDepth, vars, depth, rng, p)
  }

  /**
   * A binary node with operator `op` over two expressions generated at
   * depth `d`, the left one first.
   */
  function GenerateBinOp(op: string, maxDepth: int, vars: seq<string>, d: int, rng: Stream, pos: nat)
    : (r: Result<(Node, nat), GenError>)
    ensures r.Ok? ==> && r.value.1 > pos && r.value.0.BinOp? && r.value.0.op == op
                      && IsExpr(r.value.0.left) && IsExpr(r.value.0.right)
                      && NamesFrom(r.value.0, vars) && ConstantsWithin(r.value.0, 0, 10)
                      && Height(r.value.0) <= Budget(d, maxDepth) + 3
    ensures !DividesByZero(d, maxDepth) && |vars| > 0 ==> r.Ok?
    decreases Budget(d, maxDepth), 1, 0
  {
    var l := Generate(maxDepth, vars, d, ExprSort, rng, pos);
    if l.Err? then Err(l.error) else
    var r := Generate(maxDepth, vars, d, ExprSort, rng, l.value.1);
    if r.Err? then Err(r.error) else
    Ok((BinOp(op, l.value.0, r.value.0), r.value.1))
  }

  /**
   * The non-terminal `Stmt` production: one draw picks assign, set, swap, if
   * or loop, then the chosen form draws its parts in source order.
   */
  function GenerateStatement(maxDepth: int, vars: seq<string>, depth: int, rng: Stream, pos: nat)
    : (r: Result<(Node, nat), GenError>)
    requires depth < maxDepth && maxDepth != 0
    ensures r.Ok? ==> Generated(r.value, maxDepth, vars, depth, StmtSort, pos)
    ensures |vars| > 0 ==> r.Ok?
    decreases Budget(depth, maxDepth), 0, 1
  {
    var form := Pick(["assign", "set", "swap", "if", "loop"], rng(pos));
    var p := pos + 1;
    if form == "assign" then
      var x := Choose(vars, rng(p));
      if x.Err? then Err(x.error) else
      var e := Generate(maxDepth, vars, depth + 1, ExprSort, rng, p + 1);
      Ok((Assign(x.value, e.value.0), e.value.1))
    else if form == "set" then
      var x := Choose(vars, rng(p));
      if x.Err? then Err(x.error) else
      var e := Generate(maxDepth, vars, depth + 1, ExprSort, rng, p + 1);
      Ok((ListSet(Variable(x.value), e.value.0), e.value.1))
    else if form == "swap" then
      var x := Choose(vars, rng(p));
      if x.Err? then Err(x.error) else
      var y := Pick(vars, rng(p + 1));
      Ok((Swap(Variable(x.value), Variable(y)), p + 2))
    else if form == "if" then GenerateIf(maxDepth, vars, depth, rng, p)
    else GenerateLoop(maxDepth, vars, depth, rng, p)
  }

  /** The `if` form: a condition, then the then-branch, then the else-branch. */
  function GenerateIf(maxDepth: int, vars: seq<string>, depth: int, rng: Stream, pos: nat)
    : (r: Result<(Node, nat), GenError>)
    requires depth < maxDepth && maxDepth != 0
    ensures r.Ok? ==> Generated(r.value, maxDepth, vars, depth, StmtSort, pos)
    ensures |vars| > 0 ==> r.Ok?
    decreases Budget(depth, maxDepth), 0, 0
  {
    var c := Generate(maxDepth, vars, depth + 1, BoolSort, rng, pos);
    if c.Err? then Err(c.error) else
    var t := Generate(maxDepth, vars, depth + 1, StmtSort, rng, c.value.1);
    if t.Err? then Err(t.error) else
    var e := Generate(maxDepth, vars, depth + 1, StmtSort, rng, t.value.1);
    if e.Err? then Err(e.error) else
    Ok((If(c.value.0, t.value.0, e.value.0), e.value.1))
  }

  /** The loop form: the loop variable, the bound, then the body. */
  function GenerateLoop(maxDepth: int, vars: seq<string>, depth: int, rng: Stream, pos: nat)
    : (r: Result<(Node, nat), GenError>)
    requires depth < maxDepth && maxDepth != 0
    ensures r.Ok? ==> Generated(r.value, maxDepth, vars, depth, StmtSort, pos)
    ensures |vars| > 0 ==> r.Ok?
    decreases Budget(depth, maxDepth), 0, 0
  {
    var x := Choose(vars, rng(pos));
    if x.Err? then Err(x.error) else
    var lim := Generate(maxDepth, vars, depth + 1, ExprSort, rng, pos + 1);
    var b := Generate(maxDepth, vars, depth + 1, StmtSort, rng, lim.value.1);
    Ok((Loop(x.value, lim.value.0, b.value.0), b.value.1))
  }
}
