/**
 * Parentheses in rendered text: a text is well nested when it opens as many
 * parentheses as it closes and no prefix closes more than it has opened.
 * Both measures compose over concatenation, and each fixed form of the
 * renderer is well nested when its pieces are.
 */
module ParenBalance {
  /** Number of occurrences of `ch` in `s`. */
  function Occurrences(s: string, ch: char): nat
  {
    if s == [] then 0 else (if s[0] == ch then 1 else 0) + Occurrences(s[1..], ch)
  }

  lemma {:induction false} OccurrencesConcat(a: string, b: string, ch: char)
    ensures Occurrences(a + b, ch) == Occurrences(a, ch) + Occurrences(b, ch)
    decreases |a|
  {
    if a != [] {
      assert (a + b)[0] == a[0];
      assert (a + b)[1..] == a[1..] + b;
      OccurrencesConcat(a[1..], b, ch);
      assert Occurrences(a + b, ch) == (if a[0] == ch then 1 else 0) + Occurrences(a[1..] + b, ch);
    } else {
      assert a + b == b;
    }
  }

  lemma {:induction false} OccurrencesAbsent(s: string, ch: char)
    requires ch !in s
    ensures Occurrences(s, ch) == 0
    decreases |s|
  {
    if s != [] {
      OccurrencesAbsent(s[1..], ch);
    }
  }

  /** Opening minus closing parentheses in `s`. */
  function Balance(s: string): int
  {
    Occurrences(s, '(') - Occurrences(s, ')')
  }

  /** What one character adds to the balance. */
  function Step(c: char): int
  {
    if c == '(' then 1 else if c == ')' then -1 else 0
  }

  /** The lowest balance reached by any prefix of `s`, the empty one included. */
  function Lowest(s: string): (m: int)
    ensures m <= 0
  {
    if s == [] then 0
    else
      var rest := Step(s[0]) + Lowest(s[1..]);
      if rest < 0 then rest else 0
  }

  /** `s` opens as many parentheses as it closes, and no prefix of it closes more than it opened. */
  predicate Nested(s: string)
  {
    Balance(s) == 0 && Lowest(s) == 0
  }

  lemma BalanceFirst(s: string)
    requires s != []
    ensures Balance(s) == Step(s[0]) + Balance(s[1..])
  {
  }

  lemma BalanceConcat(a: string, b: string)
    ensures Balance(a + b) == Balance(a) + Balance(b)
  {
    OccurrencesConcat(a, b, '(');
    OccurrencesConcat(a, b, ')');
  }

  /** The lowest prefix of `a + b` lies in `a`, or in `b` shifted by the balance of `a`. */
  lemma {:induction false} LowestConcat(a: string, b: string)
    ensures Lowest(a + b) == if Lowest(a) <= Balance(a) + Lowest(b) then Lowest(a) else Balance(a) + Lowest(b)
    decreases |a|
  {
    if a == [] {
      assert a + b == b;
    } else {
      assert (a + b)[0] == a[0];
      assert (a + b)[1..] == a[1..] + b;
      LowestConcat(a[1..], b);
      BalanceFirst(a);
    }
  }

  lemma Append(a: string, b: string)
    ensures Balance(a + b) == Balance(a) + Balance(b)
    ensures Lowest(a + b) == if Lowest(a) <= Balance(a) + Lowest(b) then Lowest(a) else Balance(a) + Lowest(b)
  {
    BalanceConcat(a, b);
    LowestConcat(a, b);
  }

  lemma {:induction false} LowestAbsent(s: string)
    requires '(' !in s && ')' !in s
    ensures Lowest(s) == 0
    decreases |s|
  {
    if s != [] {
      assert s[0] in s;
      LowestAbsent(s[1..]);
    }
  }

  /** A text without parentheses is well nested. */
  lemma NestedFree(s: string)
    requires '(' !in s && ')' !in s
    ensures Nested(s)
  {
    OccurrencesAbsent(s, '(');
    OccurrencesAbsent(s, ')');
    LowestAbsent(s);
  }

  /** `Lowest` is a lower bound on the balance of every prefix. */
  lemma {:induction false} LowestBoundsPrefix(s: string, k: nat)
    requires k <= |s|
    ensures Lowest(s) <= Balance(s[..k])
    decreases k
  {
    if k > 0 {
      var p := s[..k];
      assert p[0] == s[0];
      assert p[1..] == s[1..][..k - 1];
      BalanceFirst(p);
      LowestBoundsPrefix(s[1..], k - 1);
    }
  }

  /** No prefix of a well nested text closes more parentheses than it has opened. */
  lemma NestedPrefixes(s: string)
    requires Nested(s)
    ensures forall k :: 0 <= k <= |s| ==> Balance(s[..k]) >= 0
  {
    forall k | 0 <= k <= |s|
      ensures Balance(s[..k]) >= 0
    {
      LowestBoundsPrefix(s, k);
    }
  }

  // The fixed pieces of the renderings, one per lemma so that each literal
  // is evaluated on its own.

  lemma ListOpenPiece()
    ensures Nested("L[")
  {
    NestedFree("L[");
  }

  lemma ListClosePiece()
    ensures Nested("]")
  {
    NestedFree("]");
  }

  lemma ListStorePiece()
    ensures Nested("] = ")
  {
    NestedFree("] = ");
  }

  lemma AssignPiece()
    ensures Nested(" = ")
  {
    NestedFree(" = ");
  }

  lemma SpacePiece()
    ensures Nested(" ")
  {
    NestedFree(" ");
  }

  lemma CommaPiece()
    ensures Nested(", ")
  {
    NestedFree(", ");
  }

  lemma OpenPiece()
    ensures Balance("(") == 1 && Lowest("(") == 0
  {
  }

  lemma ClosePiece()
    ensures Balance(")") == -1 && Lowest(")") == -1
  {
  }

  lemma SwapOpenPiece()
    ensures Balance("swap(") == 1 && Lowest("swap(") == 0
  {
  }

  lemma ForKeywordPiece()
    ensures Nested("for ")
  {
    NestedFree("for ");
  }

  lemma RangeOpenPiece()
    ensures Balance(" in range(") == 1 && Lowest(" in range(") == 0
  {
  }

  lemma LoopHeadClosePiece()
    ensures Balance("): { ") == -1 && Lowest("): { ") == -1
  {
  }

  lemma BlockClosePiece()
    ensures Nested(" }")
  {
    NestedFree(" }");
  }

  lemma IfOpenPiece()
    ensures Balance("if (") == 1 && Lowest("if (") == 0
  {
  }

  lemma IfHeadClosePiece()
    ensures Balance(") { ") == -1 && Lowest(") { ") == -1
  {
  }

  lemma ElseBlockPiece()
    ensures Nested(" } else { ")
  {
    NestedFree(" } else { ");
  }

  /** Two well nested texts in a row are well nested. */
  lemma NestedThen(a: string, b: string)
    requires Nested(a) && Nested(b)
    ensures Nested(a + b)
  {
    Append(a, b);
  }

  /** An opening piece, a well nested text and a closing piece that undoes the opening. */
  lemma NestedWrap(p: string, a: string, q: string)
    requires Balance(p) == 1 && Lowest(p) == 0 && Nested(a)
    requires Balance(q) == -1 && Lowest(q) == -1
    ensures Nested(p + a + q)
  {
    Append(p, a);
    Append(p + a, q);
  }

  lemma NestedListForm(a: string, b: string)
    requires Nested(a) && Nested(b)
    ensures Nested("L[" + a + "]")
    ensures Nested("L[" + a + "] = " + b)
  {
    ListOpenPiece();
    ListClosePiece();
    ListStorePiece();
    NestedThen("L[", a);
    NestedThen("L[" + a, "]");
    NestedThen("L[" + a, "] = ");
    NestedThen("L[" + a + "] = ", b);
  }

  lemma NestedSwapForm(a: string, b: string)
    requires Nested(a) && Nested(b)
    ensures Nested("swap(" + a + ", " + b + ")")
  {
    SwapOpenPiece();
    CommaPiece();
    ClosePiece();
    var s1 := "swap(" + a;
    var s2 := s1 + ", ";
    var s3 := s2 + b;
    Append("swap(", a);
    Append(s1, ", ");
    Append(s2, b);
    Append(s3, ")");
  }

  lemma NestedAssignForm(x: string, a: string)
    requires Nested(x) && Nested(a)
    ensures Nested(x + " = " + a)
  {
    AssignPiece();
    NestedThen(x, " = ");
    NestedThen(x + " = ", a);
  }

  lemma NestedBinOpForm(a: string, op: string, b: string)
    requires Nested(a) && Nested(op) && Nested(b)
    ensures Nested("(" + a + " " + op + " " + b + ")")
  {
    OpenPiece();
    SpacePiece();
    ClosePiece();
    var s1 := "(" + a;
    var s2 := s1 + " ";
    var s3 := s2 + op;
    var s4 := s3 + " ";
    var s5 := s4 + b;
    Append("(", a);
    Append(s1, " ");
    Append(s2, op);
    Append(s3, " ");
    Append(s4, b);
    Append(s5, ")");
  }

  lemma NestedIfForm(c: string, t: string, e: string)
    requires Nested(c) && Nested(t) && Nested(e)
    ensures Nested("if (" + c + ") { " + t + " } else { " + e + " }")
  {
    IfOpenPiece();
    IfHeadClosePiece();
    ElseBlockPiece();
    BlockClosePiece();
    var head := "if (" + c + ") { ";
    NestedWrap("if (", c, ") { ");
    NestedThen(head, t);
    NestedThen(head + t, " } else { ");
    NestedThen(head + t + " } else { ", e);
    NestedThen(head + t + " } else { " + e, " }");
  }

  lemma NestedLoopForm(x: string, lim: string, body: string)
    requires Nested(x) && Nested(lim) && Nested(body)
    ensures Nested("for " + x + " in range(" + lim + "): { " + body + " }")
  {
    ForKeywordPiece();
    RangeOpenPiece();
    LoopHeadClosePiece();
    BlockClosePiece();
    var s1 := "for " + x;
    var s2 := s1 + " in range(";
    var s3 := s2 + lim;
    var s4 := s3 + "): { ";
    var s5 := s4 + body;
    NestedThen("for ", x);
    Append(s1, " in range(");
    Append(s2, lim);
    Append(s3, "): { ");
    NestedThen(s4, body);
    NestedThen(s5, " }");
  }
}
