/**
 * The tree-walking mini-language: the nine node kinds, the runtime values and
 * context they are evaluated against, a big-step reference semantics (`Run`),
 * the textual rendering (`Repr`) and a `Context` object whose `Evaluate`
 * method changes its bindings and its list in place, as the interpreter does.
 */
module Nodes {
  import opened Wrappers

  /** The values an evaluation can produce: an integer, a boolean, or nothing (statements). */
  datatype Value = VInt(i: int) | VBool(b: bool) | VNone

  /** The closed set of node kinds. `Assign` keeps only its target variable's name. */
  datatype Node =
    | Constant(k: int)
    | Variable(name: string)
    | ListGet(index: Node)
    | ListSet(index: Node, rhs: Node)
    | Swap(index1: Node, index2: Node)
    | Assign(target: string, rhs: Node)
    | BinOp(op: string, left: Node, right: Node)
    | If(cond: Node, thenBranch: Node, elseBranch: Node)
    | Loop(loopVar: string, limit: Node, body: Node)

  /** The runtime errors an evaluation can raise. */
  datatype Error =
    | UnboundName(name: string)   // a variable read that is not bound
    | NoList                      // `L` is not bound
    | ReservedName                // `L` used as a scalar name
    | IndexOutOfRange             // an index outside [-|L|, |L|)
    | TypeMismatch                // an operand of the wrong kind (no number)
    | UnsupportedOp(op: string)   // an operator outside +, -, >, <, ==

  /** The context: the scalar bindings and, when bound, the list `L`. */
  datatype State = State(vars: map<string, Value>, list: Option<seq<Value>>)

  /**
   * What evaluating a node gives: its value or the error that aborted it,
   * together with the context as the evaluation left it (errors do not roll
   * back the changes made before them).
   */
  datatype Outcome = Outcome(result: Result<Value, Error>, st: State)

  /** The name under which the list is bound. */
  const ListName: string := "L"

  /** A value used as a number: booleans count as 0 and 1, nothing is no number. */
  function AsInt(v: Value): Option<int>
  {
    match v
    case VInt(i) => Some(i)
    case VBool(b) => Some(if b then 1 else 0)
    case VNone => None
  }

  /** Truth value of a condition: non-zero integers and `true`; nothing is false. */
  predicate Truthy(v: Value)
  {
    match v
    case VInt(i) => i != 0
    case VBool(b) => b
    case VNone => false
  }

  /** Equality as `==` compares values: numerically for numbers, otherwise only nothing equals nothing. */
  predicate ValueEq(a: Value, b: Value)
  {
    if AsInt(a).Some? && AsInt(b).Some? then AsInt(a).value == AsInt(b).value
    else a.VNone? && b.VNone?
  }

  /**
   * The position an index value designates in a list of length `len`:
   * negative indices count from the end; anything outside [-len, len) is an error.
   */
  function ListIndex(idx: Value, len: nat): (r: Result<nat, Error>)
    ensures r.Ok? ==> r.value < len
    ensures r.Ok? <==> AsInt(idx).Some? && -(len as int) <= AsInt(idx).value < len
    ensures r.Ok? && AsInt(idx).value >= 0 ==> r.value == AsInt(idx).value
    ensures r.Ok? && AsInt(idx).value < 0 ==> r.value == AsInt(idx).value + len
  {
    match AsInt(idx)
    case None => Err(TypeMismatch)
    case Some(i) =>
      if 0 <= i < len then Ok(i)
      else if -(len as int) <= i < 0 then Ok(i + len)
      else Err(IndexOutOfRange)
  }

  /** Applies a binary operator to two evaluated operands. */
  function ApplyOp(op: string, l: Value, r: Value): (res: Result<Value, Error>)
    ensures res == Err(UnsupportedOp(op)) <==> op !in {"+", "-", ">", "<", "=="}
    ensures res.Ok? && op in {"+", "-"} ==> res.value.VInt?
    ensures res.Ok? && op in {">", "<", "=="} ==> res.value.VBool?
    ensures op in {"+", "-", ">", "<"} ==> (res.Ok? <==> AsInt(l).Some? && AsInt(r).Some?)
    ensures op == "+" && AsInt(l).Some? && AsInt(r).Some? ==> res == Ok(VInt(AsInt(l).value + AsInt(r).value))
    ensures op == "-" && AsInt(l).Some? && AsInt(r).Some? ==> res == Ok(VInt(AsInt(l).value - AsInt(r).value))
    ensures op == ">" && AsInt(l).Some? && AsInt(r).Some? ==> res == Ok(VBool(AsInt(l).value > AsInt(r).value))
    ensures op == "<" && AsInt(l).Some? && AsInt(r).Some? ==> res == Ok(VBool(AsInt(l).value < AsInt(r).value))
    ensures op == "==" ==> res.Ok?
    ensures op == "==" && AsInt(l).Some? && AsInt(r).Some? ==> res == Ok(VBool(AsInt(l).value == AsInt(r).value))
    ensures op == "==" && (l.VNone? || r.VNone?) ==> res == Ok(VBool(l.VNone? && r.VNone?))
  {
    if op == "+" || op == "-" || op == ">" || op == "<" then
      if AsInt(l).None? || AsInt(r).None? then Err(TypeMismatch)
      else
        var a, b := AsInt(l).value, AsInt(r).value;
        if op == "+" then Ok(VInt(a + b))
        else if op == "-" then Ok(VInt(a - b))
        else if op == ">" then Ok(VBool(a > b))
        else Ok(VBool(a < b))
    else if op == "==" then Ok(VBool(ValueEq(l, r)))
    else Err(UnsupportedOp(op))
  }

  /** Evaluates node `n` in context `st`. */
  function Run(n: Node, st: State): Outcome
    decreases n, 0
  {
    match n
    case Constant(k) => Outcome(Ok(VInt(k)), st)
    case Variable(x) =>
      if x == ListName then Outcome(Err(ReservedName), st)
      else if x in st.vars then Outcome(Ok(st.vars[x]), st)
      else Outcome(Err(UnboundName(x)), st)
    case ListGet(e) =>
      var o := Run(e, st);
      if o.result.Err? then o
      else if o.st.list.None? then Outcome(Err(NoList), o.st)
      else
        var xs := o.st.list.value;
        (match ListIndex(o.result.value, |xs|)
         case Err(err) => Outcome(Err(err), o.st)
         case Ok(k) => Outcome(Ok(xs[k]), o.st))
    case ListSet(ie, ve) =>
      var oi := Run(ie, st);
      if oi.result.Err? then oi
      else
        var ov := Run(ve, oi.st);
        if ov.result.Err? then ov
        else if ov.st.list.None? then Outcome(Err(NoList), ov.st)
        else
          var xs := ov.st.list.value;
          (match ListIndex(oi.result.value, |xs|)
           case Err(err) => Outcome(Err(err), ov.st)
           case Ok(k) => Outcome(Ok(VNone), ov.st.(list := Some(xs[k := ov.result.value]))))
    case Swap(e1, e2) =>
      var o1 := Run(e1, st);
      if o1.result.Err? then o1
      else
        var o2 := Run(e2, o1.st);
        if o2.result.Err? then o2
        else if o2.st.list.None? then Outcome(Err(NoList), o2.st)
        else
          var xs := o2.st.list.value;
          // the right-hand side `L[j], L[i]` is read first, `L[j]` before `L[i]`
          (match ListIndex(o2.result.value, |xs|)
           case Err(err) => Outcome(Err(err), o2.st)
           case Ok(j) =>
             (match ListIndex(o1.result.value, |xs|)
              case Err(err) => Outcome(Err(err), o2.st)
              case Ok(i) => Outcome(Ok(VNone), o2.st.(list := Some(SwapAt(xs, i, j))))))
    case Assign(x, e) =>
      var o := Run(e, st);
      if o.result.Err? then o
      else if x == ListName then Outcome(Err(ReservedName), o.st)
      else Outcome(Ok(VNone), o.st.(vars := o.st.vars[x := o.result.value]))
    case BinOp(op, le, re) =>
      var ol := Run(le, st);
      if ol.result.Err? then ol
      else
        var or := Run(re, ol.st);
        if or.result.Err? then or
        else Outcome(ApplyOp(op, ol.result.value, or.result.value), or.st)
    case If(c, t, e) =>
      var oc := Run(c, st);
      if oc.result.Err? then oc
      else
        var ob := if Truthy(oc.result.value) then Run(t, oc.st) else Run(e, oc.st);
        if ob.result.Err? then ob else Outcome(Ok(VNone), ob.st)
    case Loop(x, lim, body) =>
      var ol := Run(lim, st);
      if ol.result.Err? then ol
      else if AsInt(ol.result.value).None? then Outcome(Err(TypeMismatch), ol.st)
      else RunLoop(x, body, 0, AsInt(ol.result.value).value, ol.st)
  }

  /** Iterations `i`, `i+1`, ..., `count-1` of a loop over `x` with body `body`. */
  function RunLoop(x: string, body: Node, i: nat, count: int, st: State): Outcome
    decreases body, 1, count - i
  {
    if count <= i then Outcome(Ok(VNone), st)
    else if x == ListName then Outcome(Err(ReservedName), st)
    else
      var o := Run(body, st.(vars := st.vars[x := VInt(i)]));
      if o.result.Err? then o else RunLoop(x, body, i + 1, count, o.st)
  }

  /** The list with the elements at positions `i` and `j` exchanged (`L[i], L[j] = L[j], L[i]`). */
  function SwapAt<T>(xs: seq<T>, i: nat, j: nat): (ys: seq<T>)
    requires i < |xs| && j < |xs|
    ensures |ys| == |xs| && ys[i] == xs[j] && ys[j] == xs[i]
    ensures forall k :: 0 <= k < |xs| && k != i && k != j ==> ys[k] == xs[k]
    ensures multiset(ys) == multiset(xs)
  {
    xs[i := xs[j]][j := xs[i]]
  }

  // ----- rendering -----

  function DigitChar(d: nat): char
    requires d < 10
  {
    "0123456789"[d]
  }

  /** Decimal digits of a natural number, most significant first. */
  function NatToString(n: nat): string
    decreases n
  {
    if n < 10 then [DigitChar(n)] else NatToString(n / 10) + [DigitChar(n % 10)]
  }

  /** `str` of an integer. */
  function IntToString(k: int): string
  {
    if k < 0 then "-" + NatToString(-k) else NatToString(k)
  }

  /** The textual form of a node. */
  function Repr(n: Node): string
  {
    match n
    case Constant(k) => IntToString(k)
    case Variable(x) => x
    case ListGet(e) => "L[" + Repr(e) + "]"
    case ListSet(ie, ve) => "L[" + Repr(ie) + "] = " + Repr(ve)
    case Swap(e1, e2) => "swap(" + Repr(e1) + ", " + Repr(e2) + ")"
    case Assign(x, e) => x + " = " + Repr(e)
    case BinOp(op, l, r) => "(" + Repr(l) + " " + op + " " + Repr(r) + ")"
    case If(c, t, e) => "if (" + Repr(c) + ") { " + Repr(t) + " } else { " + Repr(e) + " }"
    case Loop(x, lim, body) => "for " + x + " in range(" + Repr(lim) + "): { " + Repr(body) + " }"
  }

  // ----- the interpreter, acting in place on a context object -----

  class Context {
    var vars: map<string, Value>
    var list: Option<seq<Value>>

    /** The context as a value. */
    function Snapshot(): State
      reads this
    {
      State(vars, list)
    }

    constructor (vars0: map<string, Value>, list0: Option<seq<Value>>)
      ensures Snapshot() == State(vars0, list0)
    {
      vars := vars0;
      list := list0;
    }

    /** Evaluates `n`, updating the bindings and the list in place. */
    method Evaluate(n: Node) returns (r: Result<Value, Error>)
      modifies this
      ensures Outcome(r, Snapshot()) == Run(n, old(Snapshot()))
      decreases n
    {
      match n {
        case Constant(k) =>
          r := Ok(VInt(k));
        case Variable(x) =>
          if x == ListName {
            r := Err(ReservedName);
          } else if x in vars {
            r := Ok(vars[x]);
          } else {
            r := Err(UnboundName(x));
          }
        case ListGet(e) =>
          var idx := Evaluate(e);
          if idx.Err? { return idx; }
          if list.None? { return Err(NoList); }
          var k := ListIndex(idx.value, |list.value|);
          if k.Err? { return Err(k.error); }
          r := Ok(list.value[k.value]);
        case ListSet(ie, ve) =>
          var idx := Evaluate(ie);
          if idx.Err? { return idx; }
          var val := Evaluate(ve);
          if val.Err? { return val; }
          if list.None? { return Err(NoList); }
          var k := ListIndex(idx.value, |list.value|);
          if k.Err? { return Err(k.error); }
          list := Some(list.value[k.value := val.value]);
          r := Ok(VNone);
        case Swap(e1, e2) =>
          var v1 := Evaluate(e1);
          if v1.Err? { return v1; }
          var v2 := Evaluate(e2);
          if v2.Err? { return v2; }
          if list.None? { return Err(NoList); }
          var j := ListIndex(v2.value, |list.value|);
          if j.Err? { return Err(j.error); }
          var i := ListIndex(v1.value, |list.value|);
          if i.Err? { return Err(i.error); }
          var xs := list.value;
          list := Some(xs[i.value := xs[j.value]][j.value := xs[i.value]]);
          r := Ok(VNone);
        case Assign(x, e) =>
          var val := Evaluate(e);
          if val.Err? { return val; }
          if x == ListName { return Err(ReservedName); }
          vars := vars[x := val.value];
          r := Ok(VNone);
        case BinOp(op, le, re) =>
          var a := Evaluate(le);
          if a.Err? { return a; }
          var b := Evaluate(re);
          if b.Err? { return b; }
          r := ApplyOp(op, a.value, b.value);
        case If(c, t, e) =>
          var cv := Evaluate(c);
          if cv.Err? { return cv; }
          var bv;
          if Truthy(cv.value) {
            bv := Evaluate(t);
          } else {
            bv := Evaluate(e);
          }
          if bv.Err? { return bv; }
          r := Ok(VNone);
        case Loop(x, lim, body) =>
          var lv := Evaluate(lim);
          if lv.Err? { return lv; }
          if AsInt(lv.value).None? { return Err(TypeMismatch); }
          var count := AsInt(lv.value).value;
          ghost var entry := Snapshot();
          var i: nat := 0;
          while i < count
            invariant RunLoop(x, body, i, count, Snapshot()) == RunLoop(x, body, 0, count, entry)
            decreases count - i
          {
            if x == ListName { return Err(ReservedName); }
            vars := vars[x := VInt(i)];
            var bv := Evaluate(body);
            if bv.Err? { return bv; }
            i := i + 1;
          }
          r := Ok(VNone);
      }
    }
  }
}
