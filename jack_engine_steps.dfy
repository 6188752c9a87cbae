/**
  Composition steps for the compilation engine. Each compile method of
  JackEngine reads tokens and writes operations piece by piece; these lemmas
  regroup the pieces, in the order the method produces them, into the
  layout (JackSyntax) and the code (JackCodegen) of the tree it returns.
  A `Read` lemma is about the consumed tokens, a `Code` lemma about the
  written operations.
*/
module JackEngineSteps {
  import opened Common
  import opened Text
  import opened JackVM
  import opened JackSymbols
  import opened JackSyntax
  import opened JackCodegen

  // ---------------------------------------------------------------------------
  // Expressions

  lemma {:induction false} ReadParen(r0: seq<Tok>, p: Tok, e: Expr, q: Tok, r: seq<Tok>)
    requires p.kind == TokenLParen && q.kind == TokenRParen
    requires r == r0 + [Shape(p)] + UExpr(e) + [Shape(q)]
    ensures r == r0 + UTerm(TParen(e))
  {
    Assoc3(r0, [Mark(TokenLParen)], UExpr(e), [Mark(TokenRParen)]);
  }

  lemma {:induction false} CodeParen(e: Expr, tb: Tables, o0: seq<VmOp>, o: seq<VmOp>)
    requires ExprCode(e, tb).Some? && o == o0 + ExprCode(e, tb).value
    ensures var r := TermCode(TParen(e), tb);
      r.Some? && o == o0 + r.value.code && r.value.fn == "" && r.value.entry == None
  {
  }

  /** The term `~ e` or `- e`, by the command that ends its code. */
  function UnaryTerm(cmd: ArithCmd, e: Expr): Term {
    if cmd == CmdNot then TNot(e) else TNeg(e)
  }

  lemma {:induction false} ReadUnary(r0: seq<Tok>, p: Tok, cmd: ArithCmd, e: Expr, r: seq<Tok>)
    requires (cmd == CmdNot && p.kind == TokenTilda) || (cmd == CmdNeg && p.kind == TokenMinus)
    requires r == r0 + [Shape(p)] + UExpr(e)
    ensures r == r0 + UTerm(UnaryTerm(cmd, e))
  {
    Assoc(r0, [Shape(p)], UExpr(e));
  }

  lemma {:induction false} CodeUnary(cmd: ArithCmd, e: Expr, tb: Tables, o0: seq<VmOp>, o: seq<VmOp>)
    requires cmd == CmdNot || cmd == CmdNeg
    requires ExprCode(e, tb).Some? && o == o0 + ExprCode(e, tb).value + [Arith(cmd)]
    ensures var r := TermCode(UnaryTerm(cmd, e), tb);
      r.Some? && o == o0 + r.value.code && r.value.fn == "" && r.value.entry == None
  {
  }

  lemma {:induction false} ReadExpr(r0: seq<Tok>, t: Term, m: Option<string>, i: Option<Expr>, tail: Tail, r: seq<Tok>)
    requires r == r0 + UTerm(t) + UMember(m) + UIndex(i) + UTail(tail)
    ensures r == r0 + UExpr(Expr(t, m, i, tail))
  {
    Assoc4(r0, UTerm(t), UMember(m), UIndex(i), UTail(tail));
  }

  lemma {:induction false} CodeExpr(t: Term, m: Option<string>, i: Option<Expr>, tail: Tail, fn: string, entry: Option<Entry>,
                 tb: Tables, o0: seq<VmOp>, o1: seq<VmOp>, o2: seq<VmOp>, o: seq<VmOp>)
    requires TermCode(t, tb).Some? && o1 == o0 + TermCode(t, tb).value.code
    requires TermCode(t, tb).value.fn == fn && TermCode(t, tb).value.entry == entry
    requires IndexCode(i, tb).Some? && o2 == o1 + IndexCode(i, tb).value
    requires TailCode(tail, WithMember(fn, m), entry, tb).Some?
    requires o == o2 + TailCode(tail, WithMember(fn, m), entry, tb).value
    ensures ExprCode(Expr(t, m, i, tail), tb).Some? && o == o0 + ExprCode(Expr(t, m, i, tail), tb).value
  {
    var tc, ic := TermCode(t, tb).value.code, IndexCode(i, tb).value;
    var xc := TailCode(tail, WithMember(fn, m), entry, tb).value;
    assert ExprCode(Expr(t, m, i, tail), tb) == Some(tc + ic + xc);
    Assoc3(o0, tc, ic, xc);
  }


  lemma {:induction false} ReadIndex(r0: seq<Tok>, p: Tok, i: Expr, q: Tok, r: seq<Tok>)
    requires p.kind == TokenLBracket && q.kind == TokenRBracket
    requires r == r0 + [Shape(p)] + UExpr(i) + [Shape(q)]
    ensures r == r0 + UIndex(Some(i))
  {
    Assoc3(r0, [Mark(TokenLBracket)], UExpr(i), [Mark(TokenRBracket)]);
  }

  lemma {:induction false} CodeIndex(i: Expr, tb: Tables, o0: seq<VmOp>, o: seq<VmOp>)
    requires ExprCode(i, tb).Some?
    requires o == o0 + ExprCode(i, tb).value + [Arith(CmdAdd)] + [Pop(SegPointer, 1)] + [Push(SegThat, 0)]
    ensures IndexCode(Some(i), tb).Some? && o == o0 + IndexCode(Some(i), tb).value
  {
  }

  lemma {:induction false} ReadBinary(r0: seq<Tok>, p: Tok, op: BinaryOp, rhs: Expr, r: seq<Tok>)
    requires p.kind == OpKind(op)
    requires r == r0 + [Shape(p)] + UExpr(rhs)
    ensures r == r0 + UTail(BinOp(op, rhs))
  {
    assert Shape(p) == Mark(OpKind(op)) by {
      match op
      case _ =>
    }
    Assoc(r0, [Mark(OpKind(op))], UExpr(rhs));
  }

  lemma {:induction false} CodeBinary(op: BinaryOp, rhs: Expr, fn: string, entry: Option<Entry>, tb: Tables, o0: seq<VmOp>, o: seq<VmOp>)
    requires ExprCode(rhs, tb).Some? && o == o0 + ExprCode(rhs, tb).value + [OpCode(op)]
    ensures TailCode(BinOp(op, rhs), fn, entry, tb).Some? && o == o0 + TailCode(BinOp(op, rhs), fn, entry, tb).value
  {
  }

  /** The comma after the last argument, when there is one. */
  function Sep(tc: bool): seq<Tok> {
    if tc then [Mark(TokenComma)] else []
  }

  lemma {:induction false} ReadSep(r0: seq<Tok>, p: Tok, r: seq<Tok>)
    requires p.kind == TokenComma && r == r0 + [Shape(p)]
    ensures r == r0 + Sep(true)
  {
  }

  lemma {:induction false} ReadNoSep(r0: seq<Tok>)
    ensures r0 + Sep(false) == r0
  {
  }

  lemma {:induction false} ReadCall(r0: seq<Tok>, p: Tok, args: seq<Expr>, tc: bool, q: Tok, r: seq<Tok>)
    requires p.kind == TokenLParen && q.kind == TokenRParen
    requires r == r0 + [Shape(p)] + UArgs(args) + Sep(tc) + [Shape(q)]
    ensures r == r0 + UTail(CallArgs(args, tc))
  {
    Assoc4(r0, [Mark(TokenLParen)], UArgs(args), if tc then [Mark(TokenComma)] else [], [Mark(TokenRParen)]);
  }

  lemma {:induction false} CodeCall(fn: string, entry: Option<Entry>, args: seq<Expr>, tc: bool, tb: Tables,
                 name: string, n: nat, o0: seq<VmOp>, o: seq<VmOp>)
    requires Callee(fn, entry, 0) == Some((name, n))
    requires ArgsCode(args, tb).Some? && o == o0 + ArgsCode(args, tb).value + [Call(name, n + |args|)]
    ensures TailCode(CallArgs(args, tc), fn, entry, tb).Some?
    ensures o == o0 + TailCode(CallArgs(args, tc), fn, entry, tb).value
  {
  }

  lemma {:induction false} ReadArgsSnoc(r0: seq<Tok>, args: seq<Expr>, a: Expr, args': seq<Expr>, r: seq<Tok>)
    requires args' == args + [a]
    requires r == r0 + UArgs(args) + Sep(|args| > 0) + UExpr(a)
    ensures r == r0 + UArgs(args')
  {
    assert args'[..|args|] == args;
    if |args| == 0 {
      assert args' == [a];
      assert r0 + UArgs(args) + Sep(|args| > 0) == r0;
    } else {
      assert Sep(|args| > 0) == [Mark(TokenComma)];
      assert args'[|args'| - 1] == a;
      assert UArgs(args') == UArgs(args) + [Mark(TokenComma)] + UExpr(a);
      Assoc3(r0, UArgs(args), [Mark(TokenComma)], UExpr(a));
    }
  }

  /** Each argument of a call stops at a comma, the last one at what follows it. */
  lemma {:induction false} FollowSnoc(args: seq<Expr>, a: Expr, args': seq<Expr>, more: bool, close: Kind)
    requires args' == args + [a]
    requires forall j :: 0 <= j < |args| ==> Maximal(args[j], TokenComma)
    requires Maximal(a, if more then TokenComma else close)
    ensures forall j :: 0 <= j < |args'| ==> Maximal(args'[j], ArgFollow(j, |args'|, more, close))
  {
    forall j | 0 <= j < |args'|
      ensures Maximal(args'[j], ArgFollow(j, |args'|, more, close))
    {
      if j < |args| {
        assert args'[j] == args[j];
      }
    }
  }

  lemma {:induction false} CodeArgsSnoc(args: seq<Expr>, a: Expr, args': seq<Expr>, tb: Tables, o0: seq<VmOp>, o: seq<VmOp>)
    requires args' == args + [a]
    requires ArgsCode(args, tb).Some? && ExprCode(a, tb).Some?
    requires o == o0 + ArgsCode(args, tb).value + ExprCode(a, tb).value
    ensures ArgsCode(args', tb).Some? && o == o0 + ArgsCode(args', tb).value
  {
    assert args'[..|args|] == args && args'[|args|] == a;
  }

  lemma {:induction false} CodeString(s: string, o0: seq<VmOp>, o: seq<VmOp>)
    requires o == o0 + [Push(SegConst, |s|)] + [Call("String.new", 1)] + AppendChars(s)
    ensures o == o0 + StringCode(s)
  {
    var p, c := Push(SegConst, |s|), Call("String.new", 1);
    Assoc(o0, [p], [c]);
    assert [p] + [c] == [p, c];
    Assoc(o0, [p, c], AppendChars(s));
  }

  lemma {:induction false} CodeAppendChar(s: string, i: nat, o0: seq<VmOp>, o: seq<VmOp>)
    requires i < |s|
    requires o == o0 + AppendChars(s[..i]) + [Push(SegConst, s[i] as int)] + [Call("String.appendChar", 2)]
    ensures o == o0 + AppendChars(s[..i + 1])
  {
    assert s[..i + 1][..i] == s[..i];
  }

  // ---------------------------------------------------------------------------
  // Statements

  /** The writer went from o0 to o by appending r's code. */
  predicate Wrote(r: Option<seq<VmOp>>, o0: seq<VmOp>, o: seq<VmOp>) {
    r.Some? && o == o0 + r.value
  }

  /** As Wrote, and the label counter stands at the value r returns. */
  predicate WroteStmts(r: Option<(seq<VmOp>, nat)>, o0: seq<VmOp>, o: seq<VmOp>, n: nat) {
    r.Some? && o == o0 + r.value.0 && n == r.value.1
  }

  lemma {:induction false} ReadStmtsSnoc(r0: seq<Tok>, ss: seq<Stmt>, s: Stmt, r: seq<Tok>)
    requires r == r0 + UStmts(ss) + UStmt(s)
    ensures r == r0 + UStmts(ss + [s])
  {
    assert (ss + [s])[..|ss|] == ss;
    Assoc(r0, UStmts(ss), UStmt(s));
  }

  lemma {:induction false} CodeStmtsSnoc(ss: seq<Stmt>, s: Stmt, tb: Tables, n0: nat, o0: seq<VmOp>, o1: seq<VmOp>, n1: nat, o: seq<VmOp>, n: nat)
    requires WroteStmts(StmtsCode(ss, tb, n0), o0, o1, n1)
    requires WroteStmts(StmtCode(s, tb, n1), o1, o, n)
    ensures WroteStmts(StmtsCode(ss + [s], tb, n0), o0, o, n)
  {
    assert (ss + [s])[..|ss|] == ss;
    Assoc(o0, StmtsCode(ss, tb, n0).value.0, StmtCode(s, tb, n1).value.0);
  }

  lemma {:induction false} ReadBlock(r0: seq<Tok>, p: Tok, ss: seq<Stmt>, q: Tok, r: seq<Tok>)
    requires p.kind == TokenLBrace && q.kind == TokenRBrace
    requires r == r0 + [Shape(p)] + UStmts(ss) + [Shape(q)]
    ensures r == r0 + UBlock(ss)
  {
    Assoc3(r0, [Mark(TokenLBrace)], UStmts(ss), [Mark(TokenRBrace)]);
  }

  lemma {:induction false} ReadDo(r0: seq<Tok>, p: Tok, e: Expr, q: Tok, r: seq<Tok>)
    requires p.kind == TokenDo && q.kind == TokenSemicolon
    requires r == r0 + [Shape(p)] + UExpr(e) + [Shape(q)]
    ensures r == r0 + UStmt(Do(e))
  {
    Assoc3(r0, [Mark(TokenDo)], UExpr(e), [Mark(TokenSemicolon)]);
  }

  lemma {:induction false} CodeDo(e: Expr, tb: Tables, n: nat, o0: seq<VmOp>, o: seq<VmOp>)
    requires ExprCode(e, tb).Some? && o == o0 + ExprCode(e, tb).value + [Pop(SegTemp, 0)]
    ensures WroteStmts(StmtCode(Do(e), tb, n), o0, o, n)
  {
    Assoc(o0, ExprCode(e, tb).value, [Pop(SegTemp, 0)]);
  }

  /** `= value ;` of a let. */
  function ULetValue(v: Expr): seq<Tok> {
    [Mark(TokenEqual)] + UExpr(v) + [Mark(TokenSemicolon)]
  }

  lemma {:induction false} ReadLetValue(r0: seq<Tok>, p: Tok, v: Expr, q: Tok, r: seq<Tok>)
    requires p.kind == TokenEqual && q.kind == TokenSemicolon
    requires r == r0 + [Shape(p)] + UExpr(v) + [Shape(q)]
    ensures r == r0 + ULetValue(v)
  {
    Assoc3(r0, [Mark(TokenEqual)], UExpr(v), [Mark(TokenSemicolon)]);
  }

  lemma {:induction false} ReadLet(r0: seq<Tok>, name: string, index: Option<Expr>, v: Expr, r: seq<Tok>)
    requires r == r0 + [Mark(TokenLet), Ident(name)] + UIndex(index) + ULetValue(v)
    ensures r == r0 + UStmt(Let(name, index, v))
  {
    var h := [Mark(TokenLet), Ident(name)];
    Assoc3(r0, h, UIndex(index), ULetValue(v));
    Assoc3(h + UIndex(index), [Mark(TokenEqual)], UExpr(v), [Mark(TokenSemicolon)]);
  }
  /**
    The code before the value in `let name[index] = value`: the element's
    address into pointer 1. Without an entry for the name the engine
    dereferences nil.
  */
  function LetTargetCode(entry: Option<Entry>, index: Option<Expr>, tb: Tables): Option<seq<VmOp>> {
    match index
    case None => Some([])
    case Some(i) =>
      (match entry
       case None => None
       case Some(en) =>
         var ic :- ExprCode(i, tb);
         Some([PushVar(en)] + ic + [Arith(CmdAdd), Pop(SegPointer, 1)]))
  }

  /** The store that ends a let: into the element through THAT, or into the variable. */
  function LetStore(en: Entry, index: Option<Expr>): VmOp {
    if index.Some? then Pop(SegThat, 0) else PopVar(en)
  }

  lemma {:induction false} CodeLetTarget(en: Entry, i: Expr, tb: Tables, o0: seq<VmOp>, o: seq<VmOp>)
    requires ExprCode(i, tb).Some?
    requires o == o0 + [PushVar(en)] + ExprCode(i, tb).value + [Arith(CmdAdd)] + [Pop(SegPointer, 1)]
    ensures Wrote(LetTargetCode(Some(en), Some(i), tb), o0, o)
  {
    var ic := ExprCode(i, tb).value;
    assert [Arith(CmdAdd)] + [Pop(SegPointer, 1)] == [Arith(CmdAdd), Pop(SegPointer, 1)];
    Assoc4(o0, [PushVar(en)], ic, [Arith(CmdAdd)], [Pop(SegPointer, 1)]);
    Assoc3([PushVar(en)], ic, [Arith(CmdAdd)], [Pop(SegPointer, 1)]);
  }

  lemma {:induction false} CodeLet(name: string, index: Option<Expr>, v: Expr, tb: Tables, n: nat,
                o0: seq<VmOp>, o1: seq<VmOp>, o2: seq<VmOp>, o: seq<VmOp>)
    requires Lookup(tb, name).Some?
    requires Wrote(LetTargetCode(Lookup(tb, name), index, tb), o0, o1)
    requires ExprCode(v, tb).Some? && o2 == o1 + ExprCode(v, tb).value
    requires o == o2 + [LetStore(Lookup(tb, name).value, index)]
    ensures WroteStmts(StmtCode(Let(name, index, v), tb, n), o0, o, n)
  {
    var en, vc := Lookup(tb, name).value, ExprCode(v, tb).value;
    match index
    case None =>
      assert o1 == o0;
      Assoc(o0, vc, [PopVar(en)]);
    case Some(i) =>
      var tc := LetTargetCode(Lookup(tb, name), index, tb).value;
      Assoc3(o0, tc, vc, [Pop(SegThat, 0)]);
  }

  /** `( expression )` of a while or an if. */
  function UCond(c: Expr): seq<Tok> {
    [Mark(TokenLParen)] + UExpr(c) + [Mark(TokenRParen)]
  }

  lemma {:induction false} ReadCond(r0: seq<Tok>, p: Tok, c: Expr, q: Tok, r: seq<Tok>)
    requires p.kind == TokenLParen && q.kind == TokenRParen
    requires r == r0 + [Shape(p)] + UExpr(c) + [Shape(q)]
    ensures r == r0 + UCond(c)
  {
    Assoc3(r0, [Mark(TokenLParen)], UExpr(c), [Mark(TokenRParen)]);
  }

  lemma {:induction false} ReadWhile(r0: seq<Tok>, p: Tok, c: Expr, body: seq<Stmt>, r: seq<Tok>)
    requires p.kind == TokenWhile
    requires r == r0 + [Shape(p)] + UCond(c) + UBlock(body)
    ensures r == r0 + UStmt(While(c, body))
  {
    var a, b := Mark(TokenWhile), Mark(TokenLParen);
    assert [a] + [b] == [a, b];
    Assoc3(r0, [a], UCond(c), UBlock(body));
    Assoc3([a], [b], UExpr(c), [Mark(TokenRParen)]);
  }
  lemma {:induction false} CodeWhile(c: Expr, body: seq<Stmt>, tb: Tables, n0: nat, o0: seq<VmOp>, o1: seq<VmOp>, o2: seq<VmOp>, n: nat, o: seq<VmOp>)
    requires ExprCode(c, tb).Some?
    requires o1 == o0 + [Label(LabelText("loop", n0))] + ExprCode(c, tb).value + [Arith(CmdNot)] + [IfGoto(LabelText("end", n0 + 1))]
    requires WroteStmts(StmtsCode(body, tb, n0 + 2), o1, o2, n)
    requires o == o2 + [Goto(LabelText("loop", n0))] + [Label(LabelText("end", n0 + 1))]
    ensures WroteStmts(StmtCode(While(c, body), tb, n0), o0, o, n)
  {
    var loop, end := LabelText("loop", n0), LabelText("end", n0 + 1);
    var cc, bc := ExprCode(c, tb).value, StmtsCode(body, tb, n0 + 2).value.0;
    assert [Arith(CmdNot)] + [IfGoto(end)] == [Arith(CmdNot), IfGoto(end)];
    assert [Goto(loop)] + [Label(end)] == [Goto(loop), Label(end)];
    Assoc4(o0, [Label(loop)], cc, [Arith(CmdNot)], [IfGoto(end)]);
    Assoc3([Label(loop)], cc, [Arith(CmdNot)], [IfGoto(end)]);
    Assoc(o2, [Goto(loop)], [Label(end)]);
    Assoc3(o0, [Label(loop)] + cc + [Arith(CmdNot), IfGoto(end)], bc, [Goto(loop), Label(end)]);
  }

  lemma {:induction false} ReadReturn(r0: seq<Tok>, p: Tok, v: Option<Expr>, q: Tok, r: seq<Tok>)
    requires p.kind == TokenReturn && q.kind == TokenSemicolon
    requires v.None? ==> r == r0 + [Shape(p)] + [Shape(q)]
    requires v.Some? ==> r == r0 + [Shape(p)] + UExpr(v.value) + [Shape(q)]
    ensures r == r0 + UStmt(Stmt.Return(v))
  {
    match v
    case None =>
      Assoc(r0, [Mark(TokenReturn)], [Mark(TokenSemicolon)]);
      assert [Mark(TokenReturn)] + [] == [Mark(TokenReturn)];
    case Some(e) =>
      Assoc3(r0, [Mark(TokenReturn)], UExpr(e), [Mark(TokenSemicolon)]);
  }

  lemma {:induction false} CodeReturn(v: Option<Expr>, tb: Tables, n: nat, o0: seq<VmOp>, o: seq<VmOp>)
    requires v.None? ==> o == o0 + [Push(SegConst, 0)] + [VmOp.Return]
    requires v.Some? ==> ExprCode(v.value, tb).Some? && o == o0 + ExprCode(v.value, tb).value + [VmOp.Return]
    ensures WroteStmts(StmtCode(Stmt.Return(v), tb, n), o0, o, n)
  {
    match v
    case None =>
      Assoc(o0, [Push(SegConst, 0)], [VmOp.Return]);
      assert [Push(SegConst, 0)] + [VmOp.Return] == [Push(SegConst, 0), VmOp.Return];
    case Some(e) =>
      Assoc(o0, ExprCode(e, tb).value, [VmOp.Return]);
  }

  /** The else part of an if, when there is one. */
  function UElse(hasElse: bool, el: seq<Stmt>): seq<Tok> {
    if hasElse then [Mark(TokenElse)] + UBlock(el) else []
  }

  /** The code and label counter of the else part, from counter n. */
  function ElseCode(hasElse: bool, el: seq<Stmt>, tb: Tables, n: nat): Option<(seq<VmOp>, nat)> {
    if hasElse then StmtsCode(el, tb, n) else Some(([], n))
  }

  lemma {:induction false} ReadElse(r0: seq<Tok>, p: Tok, el: seq<Stmt>, r: seq<Tok>)
    requires p.kind == TokenElse && r == r0 + [Shape(p)] + UBlock(el)
    ensures r == r0 + UElse(true, el)
  {
    Assoc(r0, [Mark(TokenElse)], UBlock(el));
  }

  lemma {:induction false} ReadIf(r0: seq<Tok>, p: Tok, c: Expr, th: seq<Stmt>, hasElse: bool, el: seq<Stmt>, r: seq<Tok>)
    requires p.kind == TokenIf
    requires r == r0 + [Shape(p)] + UCond(c) + UBlock(th) + UElse(hasElse, el)
    ensures r == r0 + UStmt(If(c, th, hasElse, el))
  {
    var a, b := Mark(TokenIf), Mark(TokenLParen);
    assert [a] + [b] == [a, b];
    Assoc4(r0, [a], UCond(c), UBlock(th), UElse(hasElse, el));
    Assoc3([a], [b], UExpr(c), [Mark(TokenRParen)]);
  }
  lemma {:induction false} CodeIf(c: Expr, th: seq<Stmt>, hasElse: bool, el: seq<Stmt>, tb: Tables, n0: nat,
               o0: seq<VmOp>, o1: seq<VmOp>, o3: seq<VmOp>, o4: seq<VmOp>, n: nat, o: seq<VmOp>)
    requires ExprCode(c, tb).Some? && o1 == o0 + ExprCode(c, tb).value
    requires StmtsCode(th, tb, n0 + 2).Some?
    requires o3 == o1 + [Arith(CmdNot)] + [IfGoto(LabelText("else", n0))] + StmtsCode(th, tb, n0 + 2).value.0
                 + [Goto(LabelText("end", n0 + 1))] + [Label(LabelText("else", n0))]
    requires WroteStmts(ElseCode(hasElse, el, tb, StmtsCode(th, tb, n0 + 2).value.1), o3, o4, n)
    requires o == o4 + [Label(LabelText("end", n0 + 1))]
    ensures WroteStmts(StmtCode(If(c, th, hasElse, el), tb, n0), o0, o, n)
  {
    var elseLabel, end := LabelText("else", n0), LabelText("end", n0 + 1);
    var cc, tc := ExprCode(c, tb).value, StmtsCode(th, tb, n0 + 2).value.0;
    var ec := ElseCode(hasElse, el, tb, StmtsCode(th, tb, n0 + 2).value.1).value.0;
    assert [Arith(CmdNot)] + [IfGoto(elseLabel)] == [Arith(CmdNot), IfGoto(elseLabel)];
    assert [Goto(end)] + [Label(elseLabel)] == [Goto(end), Label(elseLabel)];
    Assoc(o1, [Arith(CmdNot)], [IfGoto(elseLabel)]);
    Assoc(o1 + [Arith(CmdNot), IfGoto(elseLabel)] + tc, [Goto(end)], [Label(elseLabel)]);
    Assoc5(o0, cc, [Arith(CmdNot), IfGoto(elseLabel)], tc, [Goto(end), Label(elseLabel)], ec);
    Assoc6(o0, cc, [Arith(CmdNot), IfGoto(elseLabel)], tc, [Goto(end), Label(elseLabel)], ec, [Label(end)]);
  }

  // ---------------------------------------------------------------------------
  // Declarations

  /** The writer holds o0 followed by the code r describes, the table is tb and the label counter n. */
  predicate WroteDecl(r: Option<(seq<VmOp>, Tables, nat)>, o0: seq<VmOp>, o: seq<VmOp>, tb: Tables, n: nat) {
    r.Some? && o == o0 + r.value.0 && tb == r.value.1 && n == r.value.2
  }

  /** One more `, name` after the further names read so far. */
  lemma {:induction false} ReadMoreSnoc(r0: seq<Tok>, more: seq<string>, pc: Tok, pn: Tok, r: seq<Tok>)
    requires pc.kind == TokenComma && pn.kind == TokenIdentifier
    requires r == r0 + UMore(more) + [Shape(pc)] + [Shape(pn)]
    ensures r == r0 + UMore(more + [pn.literal])
  {
    var m := more + [pn.literal];
    assert m[..|more|] == more;
    var a, b := Mark(TokenComma), Ident(pn.literal);
    assert [a] + [b] == [a, b];
    Assoc(r0 + UMore(more), [a], [b]);
    Assoc(r0, UMore(more), [a, b]);
  }

  /** The three tokens that open a declaration. */
  lemma {:induction false} ReadHead(r0: seq<Tok>, a: Tok, b: Tok, c: Tok, r: seq<Tok>)
    requires r == r0 + [a] + [b] + [c]
    ensures r == r0 + [a, b, c]
  {
    assert [a] + [b] + [c] == [a, b, c];
    Assoc3(r0, [a], [b], [c]);
  }

  /** The ';' that closes a declaration. */
  lemma {:induction false} ReadSemicolon(r0: seq<Tok>, u: seq<Tok>, q: Tok, r: seq<Tok>)
    requires q.kind == TokenSemicolon
    requires r == r0 + u + [Shape(q)]
    ensures r == r0 + u + [Mark(TokenSemicolon)]
  {
  }

  lemma {:induction false} ReadClassVarDec(r0: seq<Tok>, r1: seq<Tok>, ps: Tok, p: Param, more: seq<string>, r: seq<Tok>)
    requires r1 == r0 + [Shape(ps)] + UParam(p)
    requires r == r1 + UMore(more) + [Mark(TokenSemicolon)]
    ensures r == r0 + UClassVarDec(ClassVarDec(ps, p.typ, p.name, more))
  {
    var h := [Shape(ps), Shape(p.typ), Ident(p.name)];
    assert [Shape(ps)] + UParam(p) == h;
    Assoc(r0, [Shape(ps)], UParam(p));
    Assoc3(r0, h, UMore(more), [Mark(TokenSemicolon)]);
  }

  /** What one class variable declaration does to the tables, from the Define calls made while reading it. */
  lemma {:induction false} ClassVarDecDefines(v: ClassVarDec, scope: Scope, t0: Tables, t1: Tables, t2: Tables, n: nat)
    requires StorageScope(v.storage.literal) == Some(scope)
    requires t1 == Defined(t0, v.first, v.typ.literal, scope)
    requires t2 == DefinedAll(t1, v.more, v.typ.literal, scope)
    requires n == (if v.storage.literal == "field" then 1 else 0) + |v.more|
    ensures ClassVarDecEffect(v, t0) == Some((t2, n))
  {
  }

  // Each statement's expressions closed where compileExpression stops.

  lemma {:induction false} WfWhile(c: Expr, body: seq<Stmt>)
    requires Maximal(c, TokenRParen) && WfStmts(body)
    ensures WfStmt(While(c, body))
  {
  }

  lemma {:induction false} WfIf(c: Expr, th: seq<Stmt>, hasElse: bool, el: seq<Stmt>)
    requires Maximal(c, TokenRParen) && WfStmts(th) && WfStmts(el) && (!hasElse ==> el == [])
    ensures WfStmt(If(c, th, hasElse, el))
  {
  }

  // The accepted kinds, one declaration more.

  lemma {:induction false} TypedParamsSnoc(ps: seq<Param>, p: Param)
    requires TypedParams(ps) && IsTypeKind(p.typ.kind)
    ensures TypedParams(ps + [p])
  {
  }

  lemma {:induction false} TypedLocalsSnoc(vs: seq<VarDec>, v: VarDec)
    requires TypedLocals(vs) && IsTypeKind(v.typ.kind)
    ensures TypedLocals(vs + [v])
  {
  }

  lemma {:induction false} WfClassVarDecsSnoc(vs: seq<ClassVarDec>, v: ClassVarDec)
    requires WfClassVarDecs(vs) && WfClassVarDec(v)
    ensures WfClassVarDecs(vs + [v])
  {
  }

  lemma {:induction false} WfSubroutinesSnoc(ss: seq<Subroutine>, s: Subroutine)
    requires WfSubroutines(ss) && WfSubroutine(s)
    ensures WfSubroutines(ss + [s])
  {
  }

  lemma {:induction false} ReadClassVarDecsSnoc(r0: seq<Tok>, vs: seq<ClassVarDec>, v: ClassVarDec, r: seq<Tok>)
    requires r == r0 + UClassVarDecs(vs) + UClassVarDec(v)
    ensures r == r0 + UClassVarDecs(vs + [v])
  {
    assert (vs + [v])[..|vs|] == vs;
    Assoc(r0, UClassVarDecs(vs), UClassVarDec(v));
  }

  lemma {:induction false} ClassVarDecsEffectSnoc(vs: seq<ClassVarDec>, v: ClassVarDec, vs': seq<ClassVarDec>, tb: Tables,
                 t1: Tables, n1: nat, t2: Tables, n2: nat, n': nat)
    requires ClassVarDecsEffect(vs, tb) == Some((t1, n1))
    requires ClassVarDecEffect(v, t1) == Some((t2, n2))
    requires vs' == vs + [v] && n' == n1 + n2
    ensures ClassVarDecsEffect(vs', tb) == Some((t2, n'))
  {
    assert vs'[..|vs|] == vs && vs'[|vs|] == v;
  }

  /** One more parameter after parameters each followed by a comma. */
  lemma {:induction false} ReadParam(r1: seq<Tok>, ps: seq<Param>, p: Param, r: seq<Tok>)
    requires r == r1 + UParamsRest(ps) + UParam(p)
    ensures r == r1 + UParams(ps + [p])
  {
    var ps' := ps + [p];
    assert ps'[..|ps|] == ps && ps'[|ps|] == p;
    Assoc(r1, UParamsRest(ps), UParam(p));
  }

  /** A comma after the last parameter read. */
  lemma {:induction false} ReadParamComma(r1: seq<Tok>, ps: seq<Param>, pc: Tok, r: seq<Tok>)
    requires ps != [] && pc.kind == TokenComma
    requires r == r1 + UParams(ps) + [Shape(pc)]
    ensures r == r1 + UParamsRest(ps)
  {
    var init, last := ps[..|ps| - 1], ps[|ps| - 1];
    Assoc(r1 + UParamsRest(init), UParam(last), [Mark(TokenComma)]);
    Assoc(r1, UParamsRest(init), UParam(last));
    Assoc(r1, UParamsRest(init) + UParam(last), [Mark(TokenComma)]);
  }

  lemma {:induction false} ParamsEffectSnoc(ps: seq<Param>, p: Param, tb: Tables)
    ensures ParamsEffect(ps + [p], tb) == Defined(ParamsEffect(ps, tb), p.name, p.typ.literal, ScopeArg)
  {
    assert (ps + [p])[..|ps|] == ps;
  }

  /** `(`, the parameters, a comma after the last one unless the list stopped at a parameter, and `)`. */
  lemma {:induction false} ReadParameterList(r0: seq<Tok>, r1: seq<Tok>, p: Tok, ps: seq<Param>, done: bool, q: Tok, r: seq<Tok>)
    requires p.kind == TokenLParen && q.kind == TokenRParen && (done ==> ps != [])
    requires r1 == r0 + [Shape(p)]
    requires r == r1 + (if done then UParams(ps) else UParamsRest(ps)) + [Shape(q)]
    ensures r == r0 + UParameterList(ps, !done && |ps| > 0)
  {
    var tc := !done && |ps| > 0;
    var sep: seq<Tok> := if tc then [Mark(TokenComma)] else [];
    if tc {
      var init, last := ps[..|ps| - 1], ps[|ps| - 1];
      Assoc(UParamsRest(init), UParam(last), [Mark(TokenComma)]);
      assert UParamsRest(ps) == UParams(ps) + sep;
    } else {
      assert UParams(ps) + sep == UParams(ps);
    }
    Assoc4(r0, [Mark(TokenLParen)], UParams(ps), sep, [Mark(TokenRParen)]);
  }

  lemma {:induction false} ReadVarDec(r0: seq<Tok>, r1: seq<Tok>, pv: Tok, p: Param, more: seq<string>, q: Tok, r: seq<Tok>)
    requires pv.kind == TokenVar && q.kind == TokenSemicolon
    requires r1 == r0 + [Shape(pv)] + UParam(p)
    requires r == r1 + UMore(more) + [Shape(q)]
    ensures r == r0 + UVarDec(VarDec(p.typ, p.name, more))
  {
    var h := [Mark(TokenVar), Shape(p.typ), Ident(p.name)];
    assert [Shape(pv)] + UParam(p) == h;
    Assoc(r0, [Shape(pv)], UParam(p));
    Assoc3(r0, h, UMore(more), [Mark(TokenSemicolon)]);
  }

  /** What one `var` line does to the tables, from the Define calls made while reading it. */
  lemma {:induction false} VarDecDefines(v: VarDec, t0: Tables, t1: Tables, t2: Tables, n: nat)
    requires t1 == Defined(t0, v.first, v.typ.literal, ScopeVar)
    requires t2 == DefinedAll(t1, v.more, v.typ.literal, ScopeVar)
    requires n == 1 + |v.more|
    ensures VarDecEffect(v, t0) == (t2, n)
  {
  }

  lemma {:induction false} ReadVarDecsSnoc(r0: seq<Tok>, vs: seq<VarDec>, v: VarDec, r: seq<Tok>)
    requires r == r0 + UVarDecs(vs) + UVarDec(v)
    ensures r == r0 + UVarDecs(vs + [v])
  {
    assert (vs + [v])[..|vs|] == vs;
    Assoc(r0, UVarDecs(vs), UVarDec(v));
  }

  lemma {:induction false} LocalsEffectSnoc(vs: seq<VarDec>, v: VarDec, vs': seq<VarDec>, tb: Tables, t1: Tables, n1: nat, t2: Tables, n2: nat, n': nat)
    requires LocalsEffect(vs, tb) == (t1, n1) && VarDecEffect(v, t1) == (t2, n2)
    requires vs' == vs + [v] && n' == n1 + n2
    ensures LocalsEffect(vs', tb) == (t2, n')
  {
    assert vs'[..|vs|] == vs && vs'[|vs|] == v;
  }

  /** A subroutine body between its braces. */
  lemma {:induction false} ReadSubroutine(r0: seq<Tok>, r1: seq<Tok>, s: Subroutine, r: seq<Tok>)
    requires r1 == r0 + USignature(s)
    requires r == r1 + [Mark(TokenLBrace)] + UVarDecs(s.locals) + UStmts(s.body) + [Mark(TokenRBrace)]
    ensures r == r0 + USubroutine(s)
  {
    Assoc5(r0, USignature(s), [Mark(TokenLBrace)], UVarDecs(s.locals), UStmts(s.body), [Mark(TokenRBrace)]);
  }

  lemma {:induction false} CodeSubroutine(s: Subroutine, className: string, nFields: int, t0: Tables, n0: nat,
                       o0: seq<VmOp>, t1: Tables, t2: Tables, nLocals: nat, o: seq<VmOp>, n: nat)
    requires t1 == ParamsEffect(s.params, Reset(t0))
    requires LocalsEffect(s.locals, t1) == (t2, nLocals)
    requires WroteStmts(StmtsCode(s.body, t2, n0), o0 + [Function(className + "." + s.name, nLocals)] + Prologue(s.kind.literal, nFields), o, n)
    ensures WroteDecl(SubroutineCode(s, className, nFields, t0, n0), o0, o, t2, n)
  {
    Assoc3(o0, [Function(className + "." + s.name, nLocals)], Prologue(s.kind.literal, nFields), StmtsCode(s.body, t2, n0).value.0);
  }

  lemma {:induction false} ReadSubroutinesSnoc(r0: seq<Tok>, ss: seq<Subroutine>, s: Subroutine, r: seq<Tok>)
    requires r == r0 + USubroutines(ss) + USubroutine(s)
    ensures r == r0 + USubroutines(ss + [s])
  {
    assert (ss + [s])[..|ss|] == ss;
    Assoc(r0, USubroutines(ss), USubroutine(s));
  }

  lemma {:induction false} CodeSubroutinesSnoc(ss: seq<Subroutine>, s: Subroutine, className: string, nFields: int, t0: Tables, n0: nat,
                            o0: seq<VmOp>, o1: seq<VmOp>, t1: Tables, n1: nat, o: seq<VmOp>, t: Tables, n: nat)
    requires WroteDecl(SubroutinesCode(ss, className, nFields, t0, n0), o0, o1, t1, n1)
    requires WroteDecl(SubroutineCode(s, className, nFields, t1, n1), o1, o, t, n)
    ensures WroteDecl(SubroutinesCode(ss + [s], className, nFields, t0, n0), o0, o, t, n)
  {
    assert (ss + [s])[..|ss|] == ss;
    Assoc(o0, SubroutinesCode(ss, className, nFields, t0, n0).value.0, SubroutineCode(s, className, nFields, t1, n1).value.0);
  }

  lemma {:induction false} ReadClass(r0: seq<Tok>, r1: seq<Tok>, c: Class, q: Tok, r: seq<Tok>)
    requires q.kind == TokenRBrace
    requires r1 == r0 + [Mark(TokenClass), Ident(c.name), Mark(TokenLBrace)]
    requires r == r1 + UClassVarDecs(c.vars) + USubroutines(c.subs) + [Shape(q)]
    ensures r == r0 + UClass(c)
  {
    var h := [Mark(TokenClass), Ident(c.name), Mark(TokenLBrace)];
    Assoc4(r0, h, UClassVarDecs(c.vars), USubroutines(c.subs), [Mark(TokenRBrace)]);
  }
}
