/**
  The expression layout of JackSyntax is unambiguous on the trees
  compileExpression reads (compiler/engine.go:304-434): two expressions that
  each stop where compileExpression stops (Maximal), laid out at the front of
  the same token stream, are the same expression. So the tokens the engine
  consumes fix the tree, and with it the code JackCodegen assigns. The same
  holds for the statements compileStatement reads (compiler/engine.go:182-303):
  a run of statements is fixed by its tokens up to the first token that
  starts no statement.
*/
module JackLayout {
  import opened Common
  import opened JackSyntax

  /** The kind of the next token of a stream; past its end the tokenizer hands out EOF. */
  function FirstKind(r: seq<Tok>): Kind {
    if r == [] then TokenEOF else r[0].kind
  }

  /** The kinds a term can start with: the cases of compileExpression's first switch. */
  predicate StartsTerm(k: Kind) {
    k == TokenNull || k == TokenThis || k == TokenTrue || k == TokenFalse ||
    k == TokenIdentifier || k == TokenString || k == TokenNumber ||
    k == TokenLParen || k == TokenTilda || k == TokenMinus
  }

  /** The term of a single token. */
  predicate Atomic(t: Term) {
    !t.TParen? && !t.TNot? && !t.TNeg?
  }

  /** Two concatenations with equally long fronts split alike. */
  lemma {:induction false} SplitEq(a1: seq<Tok>, b1: seq<Tok>, a2: seq<Tok>, b2: seq<Tok>)
    requires a1 + b1 == a2 + b2 && |a1| == |a2|
    ensures a1 == a2 && b1 == b2
  {
    assert a1 == (a1 + b1)[..|a1|];
    assert a2 == (a2 + b2)[..|a2|];
    assert b1 == (a1 + b1)[|a1|..];
    assert b2 == (a2 + b2)[|a2|..];
  }

  /** A term's first token tells its kind of term; an atomic term is that one token. */
  lemma {:induction false} TermHead(t: Term)
    ensures |UTerm(t)| > 0 && StartsTerm(UTerm(t)[0].kind)
    ensures Atomic(t) ==> UTerm(t) == [UTerm(t)[0]]
    ensures t.TParen? <==> UTerm(t)[0].kind == TokenLParen
    ensures t.TNot? <==> UTerm(t)[0].kind == TokenTilda
    ensures t.TNeg? <==> UTerm(t)[0].kind == TokenMinus
  {
  }

  /** Atomic terms with the same token are equal. */
  lemma {:induction false} AtomicUnique(t1: Term, t2: Term)
    requires Atomic(t1) && Atomic(t2) && UTerm(t1)[0] == UTerm(t2)[0]
    ensures t1 == t2
  {
  }

  /** Every expression starts with the start of a term. */
  lemma {:induction false} ExprHead(e: Expr)
    ensures |UExpr(e)| > 0 && StartsTerm(UExpr(e)[0].kind)
  {
    TermHead(e.term);
    var m := UMember(e.member) + UIndex(e.index) + UTail(e.tail);
    Assoc3(UTerm(e.term), UMember(e.member), UIndex(e.index), UTail(e.tail));
    assert UExpr(e) == UTerm(e.term) + m;
  }

  /** Comma-separated arguments, read from the front. */
  lemma {:induction false} UArgsCons(a: seq<Expr>)
    requires |a| >= 1
    ensures UArgs(a) == UExpr(a[0]) + (if |a| == 1 then [] else [Mark(TokenComma)] + UArgs(a[1..]))
    decreases |a|
  {
    var n := |a|;
    if n == 2 {
      assert a[..1] == [a[0]] && a[1..] == [a[1]];
    } else if n > 2 {
      UArgsCons(a[..n - 1]);
      assert a[..n - 1][0] == a[0];
      assert a[..n - 1][1..] == a[1..][..n - 2];
      assert a[1..][n - 2] == a[n - 1];
      Assoc(UExpr(a[0]) + [Mark(TokenComma)], UArgs(a[1..][..n - 2]), [Mark(TokenComma)] + UExpr(a[n - 1]));
      Assoc(UArgs(a[1..][..n - 2]), [Mark(TokenComma)], UExpr(a[n - 1]));
      Assoc(UExpr(a[0]), [Mark(TokenComma)], UArgs(a[1..]));
    }
  }

  /** The token kinds that follow each part of an expression. */
  lemma {:induction false} StartKinds(m: Option<string>, i: Option<Expr>, t: Tail, r: seq<Tok>)
    ensures FirstKind(UTail(t) + r) == TailStart(t, FirstKind(r))
    ensures FirstKind(UIndex(i) + (UTail(t) + r)) == IndexStart(i, t, FirstKind(r))
    ensures FirstKind(UMember(m) + (UIndex(i) + (UTail(t) + r))) == MemberStart(m, i, t, FirstKind(r))
  {
  }

  /** BinaryOpOf recognises every operator's kind, and no operator is spelled '(' . */
  lemma {:induction false} OperatorKinds(op: BinaryOp)
    ensures BinaryOpOf(OpKind(op)) == Some(op) && OpKind(op) != TokenLParen
  {
  }

  /** The first kind after one optional part, part by part. */
  lemma {:induction false} PartHeads(m: Option<string>, i: Option<Expr>, t: Tail, r: seq<Tok>)
    ensures FirstKind(UMember(m) + r) == (if m.Some? then TokenDot else FirstKind(r))
    ensures FirstKind(UIndex(i) + r) == (if i.Some? then TokenLBracket else FirstKind(r))
    ensures FirstKind(UTail(t) + r) == TailStart(t, FirstKind(r))
    ensures t.BinOp? ==> BinaryOpOf(TailStart(t, FirstKind(r))) == Some(t.op)
  {
    if t.BinOp? {
      OperatorKinds(t.op);
    }
  }

  lemma {:induction false} ExprUnique(e1: Expr, e2: Expr, r1: seq<Tok>, r2: seq<Tok>)
    requires UExpr(e1) + r1 == UExpr(e2) + r2
    requires Maximal(e1, FirstKind(r1)) && Maximal(e2, FirstKind(r2))
    ensures e1 == e2 && r1 == r2
    decreases e1
  {
    var T1, T2 := UTail(e1.tail) + r1, UTail(e2.tail) + r2;
    var I1, I2 := UIndex(e1.index) + T1, UIndex(e2.index) + T2;
    var M1, M2 := UMember(e1.member) + I1, UMember(e2.member) + I2;
    Assoc4(UTerm(e1.term), UMember(e1.member), UIndex(e1.index), UTail(e1.tail), r1);
    Assoc4(UTerm(e2.term), UMember(e2.member), UIndex(e2.index), UTail(e2.tail), r2);
    Assoc3(UMember(e1.member), UIndex(e1.index), UTail(e1.tail), r1);
    Assoc3(UMember(e2.member), UIndex(e2.index), UTail(e2.tail), r2);
    Assoc(UIndex(e1.index), UTail(e1.tail), r1);
    Assoc(UIndex(e2.index), UTail(e2.tail), r2);
    assert UExpr(e1) + r1 == UTerm(e1.term) + M1;
    assert UExpr(e2) + r2 == UTerm(e2.term) + M2;
    StartKinds(e1.member, e1.index, e1.tail, r1);
    StartKinds(e2.member, e2.index, e2.tail, r2);
    TermUnique(e1.term, e2.term, M1, M2);
    MemberUnique(e1.member, e2.member, I1, I2);
    IndexUnique(e1.index, e2.index, T1, T2);
    TailUnique(e1.tail, e2.tail, r1, r2);
  }

  lemma {:induction false} TermUnique(t1: Term, t2: Term, r1: seq<Tok>, r2: seq<Tok>)
    requires UTerm(t1) + r1 == UTerm(t2) + r2
    requires TermMaximal(t1, FirstKind(r1)) && TermMaximal(t2, FirstKind(r2))
    ensures t1 == t2 && r1 == r2
    decreases t1
  {
    TermHead(t1);
    TermHead(t2);
    assert UTerm(t1)[0] == (UTerm(t1) + r1)[0] == (UTerm(t2) + r2)[0] == UTerm(t2)[0];
    if t1.TParen? {
      ParenUnique(t1, t2, r1, r2);
    } else if t1.TNot? || t1.TNeg? {
      UnaryUnique(t1, t2, r1, r2);
    } else {
      AtomicUnique(t1, t2);
      SplitEq(UTerm(t1), r1, UTerm(t2), r2);
    }
  }

  /** `( inner )`: the inner expressions stop at the same ')'. */
  lemma {:induction false} ParenUnique(t1: Term, t2: Term, r1: seq<Tok>, r2: seq<Tok>)
    requires t1.TParen? && t2.TParen? && UTerm(t1) + r1 == UTerm(t2) + r2
    requires TermMaximal(t1, FirstKind(r1)) && TermMaximal(t2, FirstKind(r2))
    ensures t1 == t2 && r1 == r2
    decreases t1, 0
  {
    var i1, i2 := t1.inner, t2.inner;
    var c1, c2 := [Mark(TokenRParen)] + r1, [Mark(TokenRParen)] + r2;
    Wrap(Mark(TokenLParen), UExpr(i1), Mark(TokenRParen), r1);
    Wrap(Mark(TokenLParen), UExpr(i2), Mark(TokenRParen), r2);
    SplitEq([Mark(TokenLParen)], UExpr(i1) + c1, [Mark(TokenLParen)], UExpr(i2) + c2);
    ExprUnique(i1, i2, c1, c2);
    SplitEq([Mark(TokenRParen)], r1, [Mark(TokenRParen)], r2);
  }

  /** `~ operand` and `- operand`: the operands stop at the same token. */
  lemma {:induction false} UnaryUnique(t1: Term, t2: Term, r1: seq<Tok>, r2: seq<Tok>)
    requires (t1.TNot? && t2.TNot?) || (t1.TNeg? && t2.TNeg?)
    requires UTerm(t1) + r1 == UTerm(t2) + r2
    requires TermMaximal(t1, FirstKind(r1)) && TermMaximal(t2, FirstKind(r2))
    ensures t1 == t2 && r1 == r2
    decreases t1, 0
  {
    var o1, o2 := t1.operand, t2.operand;
    var x := Mark(if t1.TNot? then TokenTilda else TokenMinus);
    assert UTerm(t1) == [x] + UExpr(o1) && UTerm(t2) == [x] + UExpr(o2);
    Assoc([x], UExpr(o1), r1);
    Assoc([x], UExpr(o2), r2);
    SplitEq([x], UExpr(o1) + r1, [x], UExpr(o2) + r2);
    ExprUnique(o1, o2, r1, r2);
  }

  /** Regrouping a bracketed part and what follows it. */
  lemma {:induction false} Wrap(x: Tok, m: seq<Tok>, y: Tok, r: seq<Tok>)
    ensures [x] + m + [y] + r == [x] + (m + ([y] + r))
  {
    Assoc3([x], m, [y], r);
    Assoc(m, [y], r);
  }

  lemma {:induction false} MemberUnique(m1: Option<string>, m2: Option<string>, r1: seq<Tok>, r2: seq<Tok>)
    requires UMember(m1) + r1 == UMember(m2) + r2
    requires m1.None? ==> FirstKind(r1) != TokenDot
    requires m2.None? ==> FirstKind(r2) != TokenDot
    ensures m1 == m2 && r1 == r2
  {
    PartHeads(m1, None, NoTail, r1);
    PartHeads(m2, None, NoTail, r2);
    if m1.Some? && m2.Some? {
      SplitEq(UMember(m1), r1, UMember(m2), r2);
    } else if m1.None? && m2.None? {
      assert UMember(m1) + r1 == r1 && UMember(m2) + r2 == r2;
    }
  }

  lemma {:induction false} IndexUnique(i1: Option<Expr>, i2: Option<Expr>, r1: seq<Tok>, r2: seq<Tok>)
    requires UIndex(i1) + r1 == UIndex(i2) + r2
    requires i1.None? ==> FirstKind(r1) != TokenLBracket
    requires i2.None? ==> FirstKind(r2) != TokenLBracket
    requires i1.Some? ==> Maximal(i1.value, TokenRBracket)
    requires i2.Some? ==> Maximal(i2.value, TokenRBracket)
    ensures i1 == i2 && r1 == r2
    decreases i1
  {
    PartHeads(None, i1, NoTail, r1);
    PartHeads(None, i2, NoTail, r2);
    if i1.Some? && i2.Some? {
      var x1, x2 := i1.value, i2.value;
      var c1, c2 := [Mark(TokenRBracket)] + r1, [Mark(TokenRBracket)] + r2;
      Wrap(Mark(TokenLBracket), UExpr(x1), Mark(TokenRBracket), r1);
      Wrap(Mark(TokenLBracket), UExpr(x2), Mark(TokenRBracket), r2);
      SplitEq([Mark(TokenLBracket)], UExpr(x1) + c1, [Mark(TokenLBracket)], UExpr(x2) + c2);
      ExprUnique(x1, x2, c1, c2);
      SplitEq([Mark(TokenRBracket)], r1, [Mark(TokenRBracket)], r2);
    } else if i1.None? && i2.None? {
      assert UIndex(i1) + r1 == r1 && UIndex(i2) + r2 == r2;
    }
  }

  lemma {:induction false} TailUnique(t1: Tail, t2: Tail, r1: seq<Tok>, r2: seq<Tok>)
    requires UTail(t1) + r1 == UTail(t2) + r2
    requires TailMaximal(t1, FirstKind(r1)) && TailMaximal(t2, FirstKind(r2))
    ensures t1 == t2 && r1 == r2
    decreases t1
  {
    PartHeads(None, None, t1, r1);
    PartHeads(None, None, t2, r2);
    if t1.NoTail? && t2.NoTail? {
      assert UTail(t1) + r1 == r1 && UTail(t2) + r2 == r2;
    } else if !t1.NoTail? && !t2.NoTail? {
      assert (UTail(t1) + r1)[0] == (UTail(t2) + r2)[0];
      if t1.BinOp? && t2.BinOp? {
        OperatorKinds(t1.op);
        OperatorKinds(t2.op);
        Assoc([Mark(OpKind(t1.op))], UExpr(t1.rhs), r1);
        Assoc([Mark(OpKind(t2.op))], UExpr(t2.rhs), r2);
        SplitEq([Mark(OpKind(t1.op))], UExpr(t1.rhs) + r1, [Mark(OpKind(t2.op))], UExpr(t2.rhs) + r2);
        ExprUnique(t1.rhs, t2.rhs, r1, r2);
      } else if t1.CallArgs? && t2.CallArgs? {
        var a1, a2 := ArgsRest(t1.args, t1.trailingComma), ArgsRest(t2.args, t2.trailingComma);
        CallLayout(t1.args, t1.trailingComma, r1);
        CallLayout(t2.args, t2.trailingComma, r2);
        SplitEq([Mark(TokenLParen)], a1 + r1, [Mark(TokenLParen)], a2 + r2);
        ArgsUnique(t1.args, t1.trailingComma, t2.args, t2.trailingComma, r1, r2);
      }
    }
  }

  /** What a call reads after its '(' : the arguments, a trailing comma, and ')'. */
  function ArgsRest(a: seq<Expr>, tc: bool): seq<Tok> {
    UArgs(a) + (if tc then [Mark(TokenComma)] else []) + [Mark(TokenRParen)]
  }

  lemma {:induction false} CallLayout(a: seq<Expr>, tc: bool, r: seq<Tok>)
    ensures UTail(CallArgs(a, tc)) + r == [Mark(TokenLParen)] + (ArgsRest(a, tc) + r)
  {
    var sep: seq<Tok> := if tc then [Mark(TokenComma)] else [];
    Assoc3([Mark(TokenLParen)], UArgs(a), sep, [Mark(TokenRParen)]);
    Assoc([Mark(TokenLParen)], ArgsRest(a, tc), r);
  }

  /** After the first argument: the further arguments with their commas, a trailing comma, and ')'. */
  function AfterFirst(a: seq<Expr>, tc: bool): seq<Tok>
    requires |a| >= 1
  {
    if |a| == 1 then (if tc then [Mark(TokenComma)] else []) + [Mark(TokenRParen)]
    else [Mark(TokenComma)] + ArgsRest(a[1..], tc)
  }

  lemma {:induction false} ArgsFront(a: seq<Expr>, tc: bool, r: seq<Tok>)
    requires |a| >= 1
    ensures ArgsRest(a, tc) + r == UExpr(a[0]) + (AfterFirst(a, tc) + r)
    ensures FirstKind(AfterFirst(a, tc) + r) == ArgFollow(0, |a|, tc, TokenRParen)
  {
    UArgsCons(a);
    var sep: seq<Tok> := if tc then [Mark(TokenComma)] else [];
    if |a| == 1 {
      Assoc3(UExpr(a[0]), sep, [Mark(TokenRParen)], r);
    } else {
      var more := [Mark(TokenComma)] + UArgs(a[1..]);
      Assoc3(UExpr(a[0]), more, sep, [Mark(TokenRParen)]);
      Assoc3([Mark(TokenComma)], UArgs(a[1..]), sep, [Mark(TokenRParen)]);
      Assoc(UExpr(a[0]), AfterFirst(a, tc), r);
    }
  }

  /** The arguments after the first still stop at their commas and ')'. */
  lemma {:induction false} ArgsMaximalRest(a: seq<Expr>, tc: bool)
    requires |a| > 1 && ArgsMaximal(a, tc)
    ensures ArgsMaximal(a[1..], tc)
  {
    forall j | 0 <= j < |a[1..]|
      ensures Maximal(a[1..][j], ArgFollow(j, |a[1..]|, tc, TokenRParen))
    {
      assert a[1..][j] == a[j + 1];
      assert ArgFollow(j, |a[1..]|, tc, TokenRParen) == ArgFollow(j + 1, |a|, tc, TokenRParen);
    }
  }

  /** A non-empty argument list starts with the start of a term, never with ',' or ')'. */
  lemma {:induction false} ArgsHead(a: seq<Expr>, tc: bool, r: seq<Tok>)
    requires |a| >= 1
    ensures |ArgsRest(a, tc) + r| > 0 && StartsTerm((ArgsRest(a, tc) + r)[0].kind)
  {
    ArgsFront(a, tc, r);
    ExprHead(a[0]);
  }

  lemma {:induction false} ArgsUnique(a1: seq<Expr>, tc1: bool, a2: seq<Expr>, tc2: bool, r1: seq<Tok>, r2: seq<Tok>)
    requires ArgsRest(a1, tc1) + r1 == ArgsRest(a2, tc2) + r2
    requires ArgsMaximal(a1, tc1) && ArgsMaximal(a2, tc2)
    ensures a1 == a2 && tc1 == tc2 && r1 == r2
    decreases a1
  {
    if a1 == [] && a2 == [] {
      assert ArgsRest(a1, tc1) == [Mark(TokenRParen)] && ArgsRest(a2, tc2) == [Mark(TokenRParen)];
      SplitEq([Mark(TokenRParen)], r1, [Mark(TokenRParen)], r2);
    } else if a1 == [] {
      assert ArgsRest(a1, tc1) == [Mark(TokenRParen)];
      ArgsHead(a2, tc2, r2);
    } else if a2 == [] {
      assert ArgsRest(a2, tc2) == [Mark(TokenRParen)];
      ArgsHead(a1, tc1, r1);
    } else {
      ArgsFront(a1, tc1, r1);
      ArgsFront(a2, tc2, r2);
      ExprUnique(a1[0], a2[0], AfterFirst(a1, tc1) + r1, AfterFirst(a2, tc2) + r2);
      var f1, f2 := AfterFirst(a1, tc1) + r1, AfterFirst(a2, tc2) + r2;
      if |a1| > 1 && |a2| > 1 {
        Assoc([Mark(TokenComma)], ArgsRest(a1[1..], tc1), r1);
        Assoc([Mark(TokenComma)], ArgsRest(a2[1..], tc2), r2);
        SplitEq([Mark(TokenComma)], ArgsRest(a1[1..], tc1) + r1, [Mark(TokenComma)], ArgsRest(a2[1..], tc2) + r2);
        ArgsMaximalRest(a1, tc1);
        ArgsMaximalRest(a2, tc2);
        ArgsUnique(a1[1..], tc1, a2[1..], tc2, r1, r2);
        ConsSplit(a1);
        ConsSplit(a2);
      } else if |a1| > 1 {
        NoArgAfterComma(a1, tc1, r1, tc2, r2);
      } else if |a2| > 1 {
        NoArgAfterComma(a2, tc2, r2, tc1, r1);
      } else if tc1 == tc2 {
        var sep: seq<Tok> := if tc1 then [Mark(TokenComma)] else [];
        Assoc(sep, [Mark(TokenRParen)], r1);
        Assoc(sep, [Mark(TokenRParen)], r2);
        SplitEq(sep + [Mark(TokenRParen)], r1, sep + [Mark(TokenRParen)], r2);
      }
    }
  }

  /** After a first argument with more to come, a comma and a term follow, never a lone ')' or `, )`. */
  lemma {:induction false} NoArgAfterComma(a: seq<Expr>, tc: bool, r: seq<Tok>, tc': bool, r': seq<Tok>)
    requires |a| > 1
    ensures AfterFirst(a, tc) + r != (if tc' then [Mark(TokenComma)] else []) + [Mark(TokenRParen)] + r'
  {
    var f := AfterFirst(a, tc) + r;
    var g := (if tc' then [Mark(TokenComma)] else []) + [Mark(TokenRParen)] + r';
    Assoc([Mark(TokenComma)], ArgsRest(a[1..], tc), r);
    ArgsHead(a[1..], tc, r);
    assert f[1] == (ArgsRest(a[1..], tc) + r)[0];
    if tc' {
      assert g[1] == Mark(TokenRParen) && f[1] != g[1];
    } else {
      assert g[0] == Mark(TokenRParen) && f[0] != g[0];
    }
  }

  /**
    The layout is unambiguous on the trees compileExpression reads: two
    expressions that stop where it stops and read the front of the same
    tokens are the same expression, followed by the same tokens.
  */
  lemma {:induction false} ExprLayoutUnique(e1: Expr, e2: Expr, r1: seq<Tok>, r2: seq<Tok>)
    requires UExpr(e1) + r1 == UExpr(e2) + r2
    requires Maximal(e1, FirstKind(r1)) && Maximal(e2, FirstKind(r2))
    ensures e1 == e2 && r1 == r2
  {
    ExprUnique(e1, e2, r1, r2);
  }

  /**
    `~ a + b` reads as `~(a + b)`: both trees lay out the same tokens, and
    only the one whose operand takes the whole rest stops where
    compileExpression does.
  */
  lemma {:induction false} NotTakesRest(a: string, b: string, k: Kind)
    requires BinaryOpOf(k).None? && k != TokenLParen && k != TokenDot && k != TokenLBracket
    ensures var nb := Expr(TName(b), None, None, NoTail);
      var whole := Expr(TNot(Expr(TName(a), None, None, BinOp(OpPlus, nb))), None, None, NoTail);
      var left := Expr(TNot(Expr(TName(a), None, None, NoTail)), None, None, BinOp(OpPlus, nb));
      UExpr(whole) == UExpr(left) && Maximal(whole, k) && !Maximal(left, k)
  {
    var na, nb := Expr(TName(a), None, None, NoTail), Expr(TName(b), None, None, NoTail);
    var sum := Expr(TName(a), None, None, BinOp(OpPlus, nb));
    assert UExpr(na) == [Ident(a)] + [] + [] + [];
    assert UExpr(nb) == [Ident(b)] + [] + [] + [];
    assert UExpr(sum) == UExpr(na) + [Mark(TokenPlus)] + UExpr(nb);
    assert UExpr(Expr(TNot(sum), None, None, NoTail)) == [Mark(TokenTilda)] + UExpr(sum);
    assert UExpr(Expr(TNot(na), None, None, BinOp(OpPlus, nb))) == [Mark(TokenTilda)] + UExpr(na) + [Mark(TokenPlus)] + UExpr(nb);
    assert TailMaximal(NoTail, k);
    assert Maximal(nb, k);
    assert TailMaximal(BinOp(OpPlus, nb), k);
    assert Maximal(sum, k);
    assert !Maximal(na, TokenPlus);
  }

  // ---------------------------------------------------------------------------
  // Statements

  /** The keyword compileStatement dispatches on. */
  function StmtKeyword(s: Stmt): Kind {
    match s
    case Do(_) => TokenDo
    case Let(_, _, _) => TokenLet
    case While(_, _) => TokenWhile
    case Return(_) => TokenReturn
    case If(_, _, _, _) => TokenIf
  }

  /** A token that ends a run of statements: neither a statement keyword nor `else`. */
  predicate EndsStmts(k: Kind) {
    k != TokenDo && k != TokenLet && k != TokenWhile && k != TokenReturn && k != TokenIf && k != TokenElse
  }

  /** Statements read from the front. */
  lemma {:induction false} UStmtsCons(ss: seq<Stmt>)
    requires ss != []
    ensures UStmts(ss) == UStmt(ss[0]) + UStmts(ss[1..])
    ensures WfStmts(ss) <==> WfStmt(ss[0]) && WfStmts(ss[1..])
    decreases |ss|
  {
    if |ss| == 1 {
      assert ss[..0] == [] && ss[1..] == [];
    } else {
      var init := ss[..|ss| - 1];
      UStmtsCons(init);
      assert init[0] == ss[0];
      assert init[1..] == ss[1..][..|ss| - 2];
      assert ss[1..][|ss| - 2] == ss[|ss| - 1];
      Assoc(UStmt(ss[0]), UStmts(init[1..]), UStmt(ss[|ss| - 1]));
    }
  }

  /** What a run of statements starts with: its first keyword, or what follows it when it is empty. */
  lemma {:induction false} StmtsHead(ss: seq<Stmt>, r: seq<Tok>)
    ensures FirstKind(UStmts(ss) + r) == (if ss == [] then FirstKind(r) else StmtKeyword(ss[0]))
    ensures ss != [] ==> UStmts(ss) + r == UStmt(ss[0]) + (UStmts(ss[1..]) + r)
    ensures ss != [] ==> (WfStmts(ss) <==> WfStmt(ss[0]) && WfStmts(ss[1..]))
  {
    if ss != [] {
      UStmtsCons(ss);
      Assoc(UStmt(ss[0]), UStmts(ss[1..]), r);
      StmtHead(ss[0], UStmts(ss[1..]) + r);
    }
  }

  lemma {:induction false} StmtHead(s: Stmt, r: seq<Tok>)
    ensures FirstKind(UStmt(s) + r) == StmtKeyword(s)
  {
    match s
    case Return(v) =>
      assert UStmt(s) == [Mark(TokenReturn)] + ((match v case None => [] case Some(e) => UExpr(e)) + [Mark(TokenSemicolon)]);
    case _ =>
  }

  /**
    The statement layout is unambiguous: two runs of statements whose
    expressions stop where compileExpression stops, followed by a token that
    starts no statement, are the same statements when their tokens are.
  */
  lemma {:induction false} StmtsUnique(ss1: seq<Stmt>, ss2: seq<Stmt>, r1: seq<Tok>, r2: seq<Tok>)
    requires UStmts(ss1) + r1 == UStmts(ss2) + r2
    requires WfStmts(ss1) && WfStmts(ss2)
    requires EndsStmts(FirstKind(r1)) && EndsStmts(FirstKind(r2))
    ensures ss1 == ss2 && r1 == r2
    decreases ss1, 2
  {
    StmtsHead(ss1, r1);
    StmtsHead(ss2, r2);
    if ss1 != [] {
      KeywordStartsStmt(ss1[0]);
    }
    if ss2 != [] {
      KeywordStartsStmt(ss2[0]);
    }
    if ss1 != [] && ss2 != [] {
      StmtsStep(ss1, ss2, r1, r2);
    } else if ss1 == [] && ss2 == [] {
      assert UStmts(ss1) + r1 == r1 && UStmts(ss2) + r2 == r2;
    }
  }

  /** A run of statements followed by what ends it starts with no `else`. */
  lemma {:induction false} StmtsNotElse(ss: seq<Stmt>, r: seq<Tok>)
    requires EndsStmts(FirstKind(r))
    ensures FirstKind(UStmts(ss) + r) != TokenElse
  {
    StmtsHead(ss, r);
    if ss != [] {
      KeywordStartsStmt(ss[0]);
    }
  }

  lemma KeywordStartsStmt(s: Stmt)
    ensures !EndsStmts(StmtKeyword(s))
  {
  }

  lemma {:induction false} StmtsStep(ss1: seq<Stmt>, ss2: seq<Stmt>, r1: seq<Tok>, r2: seq<Tok>)
    requires ss1 != [] && ss2 != []
    requires UStmt(ss1[0]) + (UStmts(ss1[1..]) + r1) == UStmt(ss2[0]) + (UStmts(ss2[1..]) + r2)
    requires WfStmt(ss1[0]) && WfStmts(ss1[1..]) && WfStmt(ss2[0]) && WfStmts(ss2[1..])
    requires EndsStmts(FirstKind(r1)) && EndsStmts(FirstKind(r2))
    ensures ss1 == ss2 && r1 == r2
    decreases ss1, 1
  {
    var q1, q2 := UStmts(ss1[1..]) + r1, UStmts(ss2[1..]) + r2;
    StmtsNotElse(ss1[1..], r1);
    StmtsNotElse(ss2[1..], r2);
    StmtUnique(ss1[0], ss2[0], q1, q2);
    StmtsUnique(ss1[1..], ss2[1..], r1, r2);
    ConsSplit(ss1);
    ConsSplit(ss2);
  }

  lemma {:induction false} StmtUnique(s1: Stmt, s2: Stmt, q1: seq<Tok>, q2: seq<Tok>)
    requires UStmt(s1) + q1 == UStmt(s2) + q2
    requires WfStmt(s1) && WfStmt(s2)
    requires FirstKind(q1) != TokenElse && FirstKind(q2) != TokenElse
    ensures s1 == s2 && q1 == q2
    decreases s1, 1
  {
    StmtHead(s1, q1);
    StmtHead(s2, q2);
    match s1
    case Do(_) => DoUnique(s1, s2, q1, q2);
    case Let(_, _, _) => LetUnique(s1, s2, q1, q2);
    case While(_, _) => WhileUnique(s1, s2, q1, q2);
    case Return(_) => ReturnUnique(s1, s2, q1, q2);
    case If(_, _, _, _) => IfUnique(s1, s2, q1, q2);
  }

  lemma {:induction false} DoUnique(s1: Stmt, s2: Stmt, q1: seq<Tok>, q2: seq<Tok>)
    requires s1.Do? && s2.Do? && UStmt(s1) + q1 == UStmt(s2) + q2
    requires WfStmt(s1) && WfStmt(s2)
    ensures s1 == s2 && q1 == q2
  {
    var c1, c2 := [Mark(TokenSemicolon)] + q1, [Mark(TokenSemicolon)] + q2;
    Wrap(Mark(TokenDo), UExpr(s1.call), Mark(TokenSemicolon), q1);
    Wrap(Mark(TokenDo), UExpr(s2.call), Mark(TokenSemicolon), q2);
    SplitEq([Mark(TokenDo)], UExpr(s1.call) + c1, [Mark(TokenDo)], UExpr(s2.call) + c2);
    ExprUnique(s1.call, s2.call, c1, c2);
    SplitEq([Mark(TokenSemicolon)], q1, [Mark(TokenSemicolon)], q2);
  }

  /** `let name [index] = value ;` regrouped from the front. */
  lemma {:induction false} LetLayout(s: Stmt, q: seq<Tok>)
    requires s.Let?
    ensures UStmt(s) + q == [Mark(TokenLet), Ident(s.name)] + (UIndex(s.index) + ([Mark(TokenEqual)] + (UExpr(s.value) + ([Mark(TokenSemicolon)] + q))))
  {
    var a, b, c, d, e := [Mark(TokenLet), Ident(s.name)], UIndex(s.index), [Mark(TokenEqual)], UExpr(s.value), [Mark(TokenSemicolon)];
    Assoc5(a, b, c, d, e, q);
    Assoc4(b, c, d, e, q);
    Assoc3(c, d, e, q);
    Assoc(d, e, q);
  }

  lemma {:induction false} LetUnique(s1: Stmt, s2: Stmt, q1: seq<Tok>, q2: seq<Tok>)
    requires s1.Let? && s2.Let? && UStmt(s1) + q1 == UStmt(s2) + q2
    requires WfStmt(s1) && WfStmt(s2)
    ensures s1 == s2 && q1 == q2
  {
    var c1, c2 := [Mark(TokenSemicolon)] + q1, [Mark(TokenSemicolon)] + q2;
    var v1, v2 := UExpr(s1.value) + c1, UExpr(s2.value) + c2;
    var e1, e2 := [Mark(TokenEqual)] + v1, [Mark(TokenEqual)] + v2;
    LetLayout(s1, q1);
    LetLayout(s2, q2);
    SplitEq([Mark(TokenLet), Ident(s1.name)], UIndex(s1.index) + e1, [Mark(TokenLet), Ident(s2.name)], UIndex(s2.index) + e2);
    assert Ident(s1.name) == Ident(s2.name);
    IndexUnique(s1.index, s2.index, e1, e2);
    SplitEq([Mark(TokenEqual)], v1, [Mark(TokenEqual)], v2);
    ExprUnique(s1.value, s2.value, c1, c2);
    SplitEq([Mark(TokenSemicolon)], q1, [Mark(TokenSemicolon)], q2);
  }

  /** `{ statements }` and what follows it. */
  lemma {:induction false} BlockUnique(b1: seq<Stmt>, b2: seq<Stmt>, q1: seq<Tok>, q2: seq<Tok>)
    requires UBlock(b1) + q1 == UBlock(b2) + q2
    requires WfStmts(b1) && WfStmts(b2)
    ensures b1 == b2 && q1 == q2
    decreases b1, 3
  {
    var c1, c2 := [Mark(TokenRBrace)] + q1, [Mark(TokenRBrace)] + q2;
    Wrap(Mark(TokenLBrace), UStmts(b1), Mark(TokenRBrace), q1);
    Wrap(Mark(TokenLBrace), UStmts(b2), Mark(TokenRBrace), q2);
    SplitEq([Mark(TokenLBrace)], UStmts(b1) + c1, [Mark(TokenLBrace)], UStmts(b2) + c2);
    StmtsUnique(b1, b2, c1, c2);
    SplitEq([Mark(TokenRBrace)], q1, [Mark(TokenRBrace)], q2);
  }

  /** `while ( cond )` and `if ( cond )`, then the rest. */
  lemma {:induction false} CondUnique(k: Kind, c1: Expr, c2: Expr, r1: seq<Tok>, r2: seq<Tok>)
    requires [Mark(k), Mark(TokenLParen)] + UExpr(c1) + [Mark(TokenRParen)] + r1 == [Mark(k), Mark(TokenLParen)] + UExpr(c2) + [Mark(TokenRParen)] + r2
    requires Maximal(c1, TokenRParen) && Maximal(c2, TokenRParen)
    ensures c1 == c2 && r1 == r2
  {
    var h := [Mark(k), Mark(TokenLParen)];
    var p1, p2 := [Mark(TokenRParen)] + r1, [Mark(TokenRParen)] + r2;
    Assoc3(h, UExpr(c1), [Mark(TokenRParen)], r1);
    Assoc3(h, UExpr(c2), [Mark(TokenRParen)], r2);
    Assoc(UExpr(c1), [Mark(TokenRParen)], r1);
    Assoc(UExpr(c2), [Mark(TokenRParen)], r2);
    SplitEq(h, UExpr(c1) + p1, h, UExpr(c2) + p2);
    ExprUnique(c1, c2, p1, p2);
    SplitEq([Mark(TokenRParen)], r1, [Mark(TokenRParen)], r2);
  }

  lemma {:induction false} WhileUnique(s1: Stmt, s2: Stmt, q1: seq<Tok>, q2: seq<Tok>)
    requires s1.While? && s2.While? && UStmt(s1) + q1 == UStmt(s2) + q2
    requires WfStmt(s1) && WfStmt(s2)
    ensures s1 == s2 && q1 == q2
    decreases s1, 0
  {
    var h := [Mark(TokenWhile), Mark(TokenLParen)];
    Assoc(h + UExpr(s1.cond) + [Mark(TokenRParen)], UBlock(s1.body), q1);
    Assoc(h + UExpr(s2.cond) + [Mark(TokenRParen)], UBlock(s2.body), q2);
    CondUnique(TokenWhile, s1.cond, s2.cond, UBlock(s1.body) + q1, UBlock(s2.body) + q2);
    BlockUnique(s1.body, s2.body, q1, q2);
  }

  lemma {:induction false} ReturnUnique(s1: Stmt, s2: Stmt, q1: seq<Tok>, q2: seq<Tok>)
    requires s1.Return? && s2.Return? && UStmt(s1) + q1 == UStmt(s2) + q2
    requires WfStmt(s1) && WfStmt(s2)
    ensures s1 == s2 && q1 == q2
  {
    var v1, v2 := s1.result, s2.result;
    var o1: seq<Tok> := match v1 case None => [] case Some(e) => UExpr(e);
    var o2: seq<Tok> := match v2 case None => [] case Some(e) => UExpr(e);
    var c1, c2 := [Mark(TokenSemicolon)] + q1, [Mark(TokenSemicolon)] + q2;
    Wrap(Mark(TokenReturn), o1, Mark(TokenSemicolon), q1);
    Wrap(Mark(TokenReturn), o2, Mark(TokenSemicolon), q2);
    SplitEq([Mark(TokenReturn)], o1 + c1, [Mark(TokenReturn)], o2 + c2);
    if v1.Some? {
      ExprHead(v1.value);
      assert (o1 + c1)[0] == o1[0];
    } else {
      assert o1 + c1 == c1;
    }
    if v2.Some? {
      ExprHead(v2.value);
      assert (o2 + c2)[0] == o2[0];
    } else {
      assert o2 + c2 == c2;
    }
    if v1.Some? && v2.Some? {
      ExprUnique(v1.value, v2.value, c1, c2);
      SplitEq([Mark(TokenSemicolon)], q1, [Mark(TokenSemicolon)], q2);
    } else if v1.None? && v2.None? {
      SplitEq([Mark(TokenSemicolon)], q1, [Mark(TokenSemicolon)], q2);
    }
  }

  /** What an if reads after its then block: an else block or nothing, then the rest. */
  function ElsePart(hasElse: bool, el: seq<Stmt>): seq<Tok> {
    if hasElse then [Mark(TokenElse)] + UBlock(el) else []
  }

  lemma {:induction false} IfUnique(s1: Stmt, s2: Stmt, q1: seq<Tok>, q2: seq<Tok>)
    requires s1.If? && s2.If? && UStmt(s1) + q1 == UStmt(s2) + q2
    requires WfStmt(s1) && WfStmt(s2)
    requires FirstKind(q1) != TokenElse && FirstKind(q2) != TokenElse
    ensures s1 == s2 && q1 == q2
    decreases s1, 0
  {
    var h := [Mark(TokenIf), Mark(TokenLParen)];
    var x1, x2 := ElsePart(s1.hasElse, s1.elseBody), ElsePart(s2.hasElse, s2.elseBody);
    assert UStmt(s1) == h + UExpr(s1.cond) + [Mark(TokenRParen)] + UBlock(s1.thenBody) + x1;
    assert UStmt(s2) == h + UExpr(s2.cond) + [Mark(TokenRParen)] + UBlock(s2.thenBody) + x2;
    Assoc3(h + UExpr(s1.cond) + [Mark(TokenRParen)], UBlock(s1.thenBody), x1, q1);
    Assoc3(h + UExpr(s2.cond) + [Mark(TokenRParen)], UBlock(s2.thenBody), x2, q2);
    CondUnique(TokenIf, s1.cond, s2.cond, UBlock(s1.thenBody) + x1 + q1, UBlock(s2.thenBody) + x2 + q2);
    Assoc(UBlock(s1.thenBody), x1, q1);
    Assoc(UBlock(s2.thenBody), x2, q2);
    BlockUnique(s1.thenBody, s2.thenBody, x1 + q1, x2 + q2);
    ElseUnique(s1.hasElse, s1.elseBody, s2.hasElse, s2.elseBody, q1, q2);
  }

  lemma {:induction false} ElseUnique(h1: bool, el1: seq<Stmt>, h2: bool, el2: seq<Stmt>, q1: seq<Tok>, q2: seq<Tok>)
    requires ElsePart(h1, el1) + q1 == ElsePart(h2, el2) + q2
    requires WfStmts(el1) && WfStmts(el2) && (!h1 ==> el1 == []) && (!h2 ==> el2 == [])
    requires FirstKind(q1) != TokenElse && FirstKind(q2) != TokenElse
    ensures h1 == h2 && el1 == el2 && q1 == q2
    decreases el1, 4
  {
    if h1 {
      Assoc([Mark(TokenElse)], UBlock(el1), q1);
    } else {
      assert ElsePart(h1, el1) + q1 == q1;
    }
    if h2 {
      Assoc([Mark(TokenElse)], UBlock(el2), q2);
    } else {
      assert ElsePart(h2, el2) + q2 == q2;
    }
    if h1 && h2 {
      SplitEq([Mark(TokenElse)], UBlock(el1) + q1, [Mark(TokenElse)], UBlock(el2) + q2);
      BlockUnique(el1, el2, q1, q2);
    }
  }
}
