/**
  The Jack compilation engine (compiler/engine.go): a recursive-descent
  parser over the token stream that writes VM code as it reads.

  Each compile method is proved against the reference compiler of
  JackCodegen: when it succeeds, the tokens it consumed are the layout
  (JackSyntax) of the parse tree it returns, and the operations it wrote are
  exactly the code JackCodegen assigns to that tree. A failure (false) is a
  run engine.go aborts: Die on an unexpected token, a panic, or a nil
  symbol-table entry dereferenced.
*/
module JackEngine {
  import opened Common
  import opened Text
  import opened JackVM
  import opened JackSymbols
  import opened JackSyntax
  import opened JackCodegen
  import opened JackEngineSteps

  /** The token the tokenizer hands out at position i; past the end it keeps returning EOF. */
  function At(tokens: seq<Tok>, i: nat): (t: Tok)
    ensures i >= |tokens| ==> t.kind == TokenEOF
    ensures i < |tokens| ==> t == tokens[i]
  {
    if i < |tokens| then tokens[i] else Tok(TokenEOF, "")
  }

  /** The tokens as the engine sees them. */
  function Shapes(ts: seq<Tok>): seq<Tok> {
    if ts == [] then [] else Shapes(ts[..|ts| - 1]) + [Shape(ts[|ts| - 1])]
  }

  /** genLabel's counter. engine.go keeps it in a package variable, so every engine of one run shares it. */
  class LabelGenerator {
    var sequence: nat

    constructor ()
      ensures sequence == 0
    {
      sequence := 0;
    }

    method GenLabel(prefix: string) returns (l: string)
      modifies this
      ensures l == LabelText(prefix, old(sequence)) && sequence == old(sequence) + 1
    {
      l := prefix + "." + NatToString(sequence);
      sequence := sequence + 1;
    }
  }

  class Engine {
    /** What the tokenizer produces, in order. */
    const tokens: seq<Tok>
    const vmwriter: VMWriter
    const symtable: SymbolTable
    const labels: LabelGenerator

    var currentToken: Tok
    var peekToken: Tok
    /** The position of peekToken in the stream. */
    var cursor: nat
    /** The shapes of the tokens consumed so far. */
    ghost var read: seq<Tok>

    ghost predicate Valid()
      reads this
    {
      cursor <= |tokens| && peekToken == At(tokens, cursor) && read == Shapes(tokens[..cursor])
    }

    /** The writer holds `before` followed by the code r describes. */
    ghost predicate Emitted(r: Option<seq<VmOp>>, before: seq<VmOp>)
      reads vmwriter
    {
      r.Some? && vmwriter.ops == before + r.value
    }

    /** As Emitted, and the label counter has reached the value r returns. */
    ghost predicate EmittedStmts(r: Option<(seq<VmOp>, nat)>, before: seq<VmOp>)
      reads vmwriter, labels
    {
      WroteStmts(r, before, vmwriter.ops, labels.sequence)
    }

    /** As EmittedStmts, and the symbol table is the one r returns. */
    ghost predicate EmittedDecl(r: Option<(seq<VmOp>, Tables, nat)>, before: seq<VmOp>)
      reads vmwriter, symtable, labels
    {
      WroteDecl(r, before, vmwriter.ops, symtable.State(), labels.sequence)
    }

    /** NewCompilationEngine: a fresh writer and symbol table, and the first token read into peekToken. */
    constructor (input: seq<Tok>, labels: LabelGenerator)
      ensures Valid() && tokens == input && cursor == 0 && read == [] && this.labels == labels
      ensures fresh(vmwriter) && fresh(symtable) && vmwriter.ops == [] && symtable.State() == Empty
    {
      tokens := input;
      vmwriter := new VMWriter();
      symtable := new SymbolTable();
      this.labels := labels;
      currentToken := Tok(TokenEOF, "");
      peekToken := At(input, 0);
      cursor := 0;
      read := [];
    }

    method NextToken()
      requires Valid() && peekToken.kind != TokenEOF
      modifies this
      ensures Valid() && cursor == old(cursor) + 1 && currentToken == old(peekToken)
      ensures read == old(read) + [Shape(old(peekToken))]
    {
      assert tokens[..cursor + 1][..cursor] == tokens[..cursor];
      currentToken := peekToken;
      read := read + [Shape(peekToken)];
      cursor := cursor + 1;
      peekToken := At(tokens, cursor);
    }

    /** expectPeek: consume the next token if its kind is one of `kinds`, and fail otherwise. */
    method ExpectPeek(kinds: set<Kind>) returns (ok: bool)
      requires Valid() && TokenEOF !in kinds
      modifies this
      ensures Valid()
      ensures ok == (old(peekToken).kind in kinds)
      ensures ok ==> cursor == old(cursor) + 1 && currentToken == old(peekToken) && read == old(read) + [Shape(old(peekToken))]
    {
      ok := peekToken.kind in kinds;
      if ok {
        NextToken();
      }
    }

    // -------------------------------------------------------------------------
    // Expressions

    /** The writer holds `before` followed by the term's code, and the term leaves `fn` and `entry` behind. */
    ghost predicate TermEmitted(t: Term, fn: string, entry: Option<Entry>, before: seq<VmOp>)
      reads vmwriter, symtable
    {
      var r := TermCode(t, symtable.State());
      r.Some? && vmwriter.ops == before + r.value.code && r.value.fn == fn && r.value.entry == entry
    }

    /** compileExpression's first switch: one term, and the call name and entry it leaves for what follows. */
    method CompileTerm() returns (ok: bool, fn: string, entry: Option<Entry>, ghost t: Term)
      requires Valid()
      modifies this, vmwriter
      decreases |tokens| - cursor, 1
      ensures Valid()
      ensures ok ==> cursor > old(cursor) && read == old(read) + UTerm(t)
      ensures ok ==> TermEmitted(t, fn, entry, old(vmwriter.ops))
      ensures ok ==> TermMaximal(t, peekToken.kind)
    {
      fn, entry, t := "", None, TNull;
      match peekToken.kind
      case TokenNull | TokenThis | TokenTrue | TokenFalse =>
        t := CompileKeywordConstant();
        ok := true;
      case TokenIdentifier =>
        fn, entry, t := CompileName();
        ok := true;
      case TokenString =>
        t := CompileStringConstant();
        ok := true;
      case TokenNumber =>
        ok, t := CompileNumber();
      case TokenLParen =>
        ok, t := CompileParen();
      case TokenTilda =>
        ok, t := CompileUnary(CmdNot);
      case TokenMinus =>
        ok, t := CompileUnary(CmdNeg);
      case _ =>
        // Die("invalid expression")
        ok := false;
    }

    /** null, this, true, false. */
    method CompileKeywordConstant() returns (ghost t: Term)
      requires Valid() && peekToken.kind in {TokenNull, TokenThis, TokenTrue, TokenFalse}
      modifies this, vmwriter
      ensures Valid() && cursor == old(cursor) + 1 && read == old(read) + UTerm(t)
      ensures TermEmitted(t, "", None, old(vmwriter.ops))
      ensures t.TNull? || t.TThis? || t.TTrue? || t.TFalse?
    {
      var k := peekToken.kind;
      NextToken();
      if k == TokenNull {
        vmwriter.WritePush(SegConst, 0);
        t := TNull;
      } else if k == TokenThis {
        vmwriter.WritePush(SegPointer, 0);
        t := TThis;
      } else if k == TokenTrue {
        vmwriter.WritePush(SegConst, 1);
        vmwriter.WriteArithmetic(CmdNeg);
        t := TTrue;
      } else {
        vmwriter.WritePush(SegConst, 0);
        t := TFalse;
      }
    }

    /** A name: a variable is pushed; any other name begins a call name. */
    method CompileName() returns (fn: string, entry: Option<Entry>, ghost t: Term)
      requires Valid() && peekToken.kind == TokenIdentifier
      modifies this, vmwriter
      ensures Valid() && cursor == old(cursor) + 1 && read == old(read) + UTerm(t)
      ensures TermEmitted(t, fn, entry, old(vmwriter.ops))
      ensures t == TName(old(peekToken).literal)
    {
      NextToken();
      var name := currentToken.literal;
      fn := "";
      entry := symtable.Find(name);
      if entry.None? {
        fn := name;
      } else {
        vmwriter.WritePush(ScopeSegment(entry.value.scope), entry.value.index);
      }
      t := TName(name);
    }

    /** A string constant: the length, String.new, and one appendChar per character. */
    method CompileStringConstant() returns (ghost t: Term)
      requires Valid() && peekToken.kind == TokenString
      modifies this, vmwriter
      ensures Valid() && cursor == old(cursor) + 1 && read == old(read) + UTerm(t)
      ensures TermEmitted(t, "", None, old(vmwriter.ops))
      ensures t == TStr(old(peekToken).literal)
    {
      ghost var o0 := vmwriter.ops;
      NextToken();
      var str := currentToken.literal;
      vmwriter.WritePush(SegConst, |str|);
      vmwriter.WriteCall("String.new", 1);
      ghost var o1 := vmwriter.ops;
      var i := 0;
      while i < |str|
        modifies vmwriter
        invariant 0 <= i <= |str|
        invariant vmwriter.ops == o1 + AppendChars(str[..i])
      {
        vmwriter.WritePush(SegConst, str[i] as int);
        vmwriter.WriteCall("String.appendChar", 2);
        CodeAppendChar(str, i, o1, vmwriter.ops);
        i := i + 1;
      }
      assert str[..|str|] == str;
      CodeString(str, o0, vmwriter.ops);
      t := TStr(str);
    }

    /** An integer constant; a literal strconv.Atoi rejects, or one above 2^63 - 1, makes engine.go panic. */
    method CompileNumber() returns (ok: bool, ghost t: Term)
      requires Valid() && peekToken.kind == TokenNumber
      modifies this, vmwriter
      ensures Valid() && cursor == old(cursor) + 1
      ensures ok ==> read == old(read) + UTerm(t) && TermEmitted(t, "", None, old(vmwriter.ops))
      ensures ok <==> IsDecimal(old(peekToken).literal) && DecimalValue(old(peekToken).literal) <= MaxInt
      ensures t == TNum(old(peekToken).literal)
    {
      NextToken();
      var lit := currentToken.literal;
      t := TNum(lit);
      var v := Atoi(lit);
      if v.None? {
        ok := false;
        return;
      }
      vmwriter.WritePush(SegConst, v.value);
      ok := true;
    }

    /** `( expression )` */
    method CompileParen() returns (ok: bool, ghost t: Term)
      requires Valid() && peekToken.kind == TokenLParen
      modifies this, vmwriter
      decreases |tokens| - cursor, 0
      ensures Valid()
      ensures ok ==> cursor > old(cursor) && read == old(read) + UTerm(t) && TermEmitted(t, "", None, old(vmwriter.ops))
      ensures ok ==> t.TParen? && TermMaximal(t, peekToken.kind)
    {
      t := TNull;
      ghost var r0, o0, p := read, vmwriter.ops, peekToken;
      ok := ExpectPeek({TokenLParen});
      ghost var e: Expr;
      ok, e := CompileExpression();
      if !ok {
        return;
      }
      ghost var q := peekToken;
      ok := ExpectPeek({TokenRParen});
      if !ok {
        return;
      }
      t := TParen(e);
      ReadParen(r0, p, e, q, read);
      CodeParen(e, symtable.State(), o0, vmwriter.ops);
    }

    /** `~ expression` and `- expression`: the operand, then not or neg. */
    method CompileUnary(cmd: ArithCmd) returns (ok: bool, ghost t: Term)
      requires Valid()
      requires (cmd == CmdNot && peekToken.kind == TokenTilda) || (cmd == CmdNeg && peekToken.kind == TokenMinus)
      modifies this, vmwriter
      decreases |tokens| - cursor, 0
      ensures Valid()
      ensures ok ==> cursor > old(cursor) && read == old(read) + UTerm(t) && TermEmitted(t, "", None, old(vmwriter.ops))
      ensures ok ==> TermMaximal(t, peekToken.kind)
    {
      t := TNull;
      ghost var r0, o0, p := read, vmwriter.ops, peekToken;
      NextToken();
      ghost var e: Expr;
      ok, e := CompileExpression();
      if !ok {
        return;
      }
      vmwriter.WriteArithmetic(cmd);
      t := UnaryTerm(cmd, e);
      ReadUnary(r0, p, cmd, e, read);
      CodeUnary(cmd, e, symtable.State(), o0, vmwriter.ops);
    }

    /** compileExpression: a term, an optional `.name`, an optional `[index]`, then the tail. */
    method CompileExpression() returns (ok: bool, ghost e: Expr)
      requires Valid()
      modifies this, vmwriter
      decreases |tokens| - cursor, 2
      ensures Valid()
      ensures ok ==> cursor > old(cursor) && read == old(read) + UExpr(e)
      ensures ok ==> Emitted(ExprCode(e, symtable.State()), old(vmwriter.ops))
      ensures ok ==> Maximal(e, peekToken.kind)
    {
      e := Expr(TNull, None, None, NoTail);
      ghost var r0, o0 := read, vmwriter.ops;
      var fn, entry;
      ghost var t: Term;
      ok, fn, entry, t := CompileTerm();
      if !ok {
        return;
      }
      ghost var o1, fn0, k1 := vmwriter.ops, fn, peekToken.kind;
      ghost var member: Option<string>;
      ok, fn, member := CompileMember(fn);
      if !ok {
        return;
      }
      ghost var index: Option<Expr>;
      ok, index := CompileIndex();
      if !ok {
        return;
      }
      ghost var o2 := vmwriter.ops;
      ghost var tail: Tail;
      ok, tail := CompileTail(fn, entry);
      if !ok {
        return;
      }
      e := Expr(t, member, index, tail);
      ReadExpr(r0, t, member, index, tail, read);
      CodeExpr(t, member, index, tail, fn0, entry, symtable.State(), o0, o1, o2, vmwriter.ops);
    }

    /** `.name` after a term extends the call name. */
    method CompileMember(fn: string) returns (ok: bool, fn': string, ghost member: Option<string>)
      requires Valid()
      modifies this
      ensures Valid()
      ensures ok ==> cursor >= old(cursor) && read == old(read) + UMember(member) && fn' == WithMember(fn, member)
      ensures ok ==> old(peekToken).kind == (if member.Some? then TokenDot else peekToken.kind)
      ensures ok && member.None? ==> peekToken.kind != TokenDot
    {
      fn', member := fn, None;
      if peekToken.kind != TokenDot {
        return true, fn', member;
      }
      ok := ExpectPeek({TokenDot});
      ok := ExpectPeek({TokenIdentifier});
      if !ok {
        return;
      }
      fn' := fn + "." + currentToken.literal;
      member := Some(currentToken.literal);
    }

    /** `[index]` after a term: the element's address into THAT, and the element pushed. */
    method CompileIndex() returns (ok: bool, ghost index: Option<Expr>)
      requires Valid()
      modifies this, vmwriter
      decreases |tokens| - cursor, 1
      ensures Valid()
      ensures ok ==> cursor >= old(cursor) && read == old(read) + UIndex(index)
      ensures ok ==> Emitted(IndexCode(index, symtable.State()), old(vmwriter.ops))
      ensures ok ==> old(peekToken).kind == (if index.Some? then TokenLBracket else peekToken.kind)
      ensures ok && index.None? ==> peekToken.kind != TokenLBracket
      ensures ok && index.Some? ==> Maximal(index.value, TokenRBracket)
    {
      index := None;
      if peekToken.kind != TokenLBracket {
        return true, index;
      }
      ghost var r0, o0, p := read, vmwriter.ops, peekToken;
      NextToken();
      ghost var i: Expr;
      ok, i := CompileExpression();
      if !ok {
        return;
      }
      vmwriter.WriteArithmetic(CmdAdd);
      vmwriter.WritePop(SegPointer, 1);
      vmwriter.WritePush(SegThat, 0);
      ghost var q := peekToken;
      ok := ExpectPeek({TokenRBracket});
      if !ok {
        return;
      }
      index := Some(i);
      ReadIndex(r0, p, i, q, read);
      CodeIndex(i, symtable.State(), o0, vmwriter.ops);
    }

    /** compileExpression's second switch: a binary operator and the rest of the expression, a call, or nothing. */
    method CompileTail(fn: string, entry: Option<Entry>) returns (ok: bool, ghost tail: Tail)
      requires Valid()
      modifies this, vmwriter
      decreases |tokens| - cursor, 2
      ensures Valid()
      ensures ok ==> cursor >= old(cursor) && read == old(read) + UTail(tail)
      ensures ok ==> Emitted(TailCode(tail, fn, entry, symtable.State()), old(vmwriter.ops))
      ensures ok ==> old(peekToken).kind == TailStart(tail, peekToken.kind) && TailMaximal(tail, peekToken.kind)
    {
      var op := BinaryOpOf(peekToken.kind);
      if op.Some? {
        ghost var rhs: Expr;
        ok, rhs := CompileBinary(op.value);
        tail := BinOp(op.value, rhs);
        if ok {
          CodeBinary(op.value, rhs, fn, entry, symtable.State(), old(vmwriter.ops), vmwriter.ops);
        }
      } else if peekToken.kind == TokenLParen {
        ghost var args: seq<Expr>, tc: bool;
        ok, args, tc := CompileCall(fn, entry);
        tail := CallArgs(args, tc);
      } else {
        ok, tail := true, NoTail;
      }
    }

    /** The operator's instruction: a VM arithmetic command, or a call into Math for '*' and '/'. */
    method EmitOp(op: BinaryOp)
      modifies vmwriter
      ensures vmwriter.ops == old(vmwriter.ops) + [OpCode(op)]
    {
      match op
      case OpPlus => vmwriter.WriteArithmetic(CmdAdd);
      case OpMinus => vmwriter.WriteArithmetic(CmdSub);
      case OpTimes => vmwriter.WriteCall("Math.multiply", 2);
      case OpDivide => vmwriter.WriteCall("Math.divide", 2);
      case OpAnd => vmwriter.WriteArithmetic(CmdAnd);
      case OpOr => vmwriter.WriteArithmetic(CmdOr);
      case OpLt => vmwriter.WriteArithmetic(CmdLt);
      case OpGt => vmwriter.WriteArithmetic(CmdGt);
      case OpEq => vmwriter.WriteArithmetic(CmdEq);
    }

    /** An operator: the whole rest of the expression is its right operand, and the operator's code comes last. */
    method CompileBinary(op: BinaryOp) returns (ok: bool, ghost rhs: Expr)
      requires Valid() && peekToken.kind == OpKind(op)
      modifies this, vmwriter
      decreases |tokens| - cursor, 0
      ensures Valid()
      ensures ok ==> cursor > old(cursor) && read == old(read) + UTail(BinOp(op, rhs))
      ensures ok ==> ExprCode(rhs, symtable.State()).Some?
      ensures ok ==> vmwriter.ops == old(vmwriter.ops) + ExprCode(rhs, symtable.State()).value + [OpCode(op)]
      ensures ok ==> Maximal(rhs, peekToken.kind)
    {
      ghost var r0, p := read, peekToken;
      NextToken();
      ok, rhs := CompileExpression();
      if !ok {
        return;
      }
      EmitOp(op);
      ReadBinary(r0, p, op, rhs, read);
    }

    /** A call: a name starting with '.' is a method called on the variable already pushed, as one more argument. */
    method CompileCall(fn: string, entry: Option<Entry>) returns (ok: bool, ghost args: seq<Expr>, ghost tc: bool)
      requires Valid() && peekToken.kind == TokenLParen
      modifies this, vmwriter
      decreases |tokens| - cursor, 1
      ensures Valid()
      ensures ok ==> cursor > old(cursor) && read == old(read) + UTail(CallArgs(args, tc))
      ensures ok ==> Emitted(TailCode(CallArgs(args, tc), fn, entry, symtable.State()), old(vmwriter.ops))
      ensures ok ==> ArgsMaximal(args, tc)
    {
      args, tc := [], false;
      ghost var r0, o0, p := read, vmwriter.ops, peekToken;
      ok := ExpectPeek({TokenLParen});
      // the callee and the count of the arguments pushed before the list; None is entry.Type on a nil entry
      var callee := Callee(fn, entry, 0);
      if callee.None? {
        ok := false;
        return;
      }
      var (name, nArgs) := callee.value;
      ok, args, tc := CompileArgList(name, nArgs);
      if !ok {
        return;
      }
      ReadCall(r0, p, args, tc, Mark(TokenRParen), read);
      CodeCall(fn, entry, args, tc, symtable.State(), name, nArgs, o0, vmwriter.ops);
    }

    /** The arguments after `(`, then `)` and `call name nArgs`, counting the arguments on top of nArgs. */
    method CompileArgList(name: string, nArgs: nat) returns (ok: bool, ghost args: seq<Expr>, ghost tc: bool)
      requires Valid()
      modifies this, vmwriter
      decreases |tokens| - cursor + 1, 0, 1
      ensures Valid()
      ensures ok ==> cursor > old(cursor) && read == old(read) + UArgs(args) + Sep(tc) + [Mark(TokenRParen)]
      ensures ok ==> ArgsCode(args, symtable.State()).Some?
      ensures ok ==> vmwriter.ops == old(vmwriter.ops) + ArgsCode(args, symtable.State()).value + [Call(name, nArgs + |args|)]
      ensures ok ==> ArgsMaximal(args, tc)
    {
      var n;
      ok, n, args, tc := CompileArgs();
      if !ok {
        return;
      }
      ghost var q := peekToken;
      ok := ExpectPeek({TokenRParen});
      if !ok {
        return;
      }
      vmwriter.WriteCall(name, nArgs + n);
    }

    /** The argument loop: expressions separated by commas, up to a ')' that is left unread. */
    method CompileArgs() returns (ok: bool, nArgs: nat, ghost args: seq<Expr>, ghost tc: bool)
      requires Valid()
      modifies this, vmwriter
      decreases |tokens| - cursor + 1, 0, 0
      ensures Valid()
      ensures ok ==> cursor >= old(cursor) && nArgs == |args| && (tc ==> |args| > 0)
      ensures ok ==> read == old(read) + UArgs(args) + Sep(tc)
      ensures ok ==> Emitted(ArgsCode(args, symtable.State()), old(vmwriter.ops))
      ensures ok ==> forall j :: 0 <= j < |args| ==> Maximal(args[j], ArgFollow(j, |args|, tc, peekToken.kind))
      ensures ok && peekToken.kind == TokenRParen ==> ArgsMaximal(args, tc)
    {
      args, nArgs, ok, tc := [], 0, true, false;
      var done := false;
      while !done && peekToken.kind != TokenRParen
        invariant Valid() && cursor >= old(cursor) && nArgs == |args|
        invariant done ==> |args| > 0
        invariant read == old(read) + UArgs(args) + Sep(!done && |args| > 0)
        invariant Emitted(ArgsCode(args, symtable.State()), old(vmwriter.ops))
        invariant forall j :: 0 <= j < |args| ==> Maximal(args[j], ArgFollow(j, |args|, !done, peekToken.kind))
        decreases |tokens| - cursor
      {
        var last;
        ok, last, args := CompileNextArg(old(read), old(vmwriter.ops), args);
        if !ok {
          return;
        }
        nArgs := nArgs + 1;
        done := last;
      }
      tc := !done && |args| > 0;
    }

    /** One more argument after `args` and its comma, if any; last says that no comma followed. */
    method CompileNextArg(ghost r0: seq<Tok>, ghost o0: seq<VmOp>, ghost args: seq<Expr>)
      returns (ok: bool, last: bool, ghost args': seq<Expr>)
      requires Valid() && read == r0 + UArgs(args) + Sep(|args| > 0)
      requires Emitted(ArgsCode(args, symtable.State()), o0)
      requires forall j :: 0 <= j < |args| ==> Maximal(args[j], TokenComma)
      modifies this, vmwriter
      decreases |tokens| - cursor + 1, 0, 0, 0
      ensures Valid()
      ensures ok ==> cursor > old(cursor) && |args'| == |args| + 1
      ensures ok ==> read == r0 + UArgs(args') + Sep(!last)
      ensures ok ==> Emitted(ArgsCode(args', symtable.State()), o0)
      ensures ok ==> forall j :: 0 <= j < |args'| ==> Maximal(args'[j], ArgFollow(j, |args'|, !last, peekToken.kind))
    {
      last := true;
      ghost var a: Expr;
      ok, a := CompileExpression();
      args' := args + [a];
      if !ok {
        return;
      }
      ReadArgsSnoc(r0, args, a, args', read);
      CodeArgsSnoc(args, a, args', symtable.State(), o0, vmwriter.ops);
      last := CompileArgSep();
      FollowSnoc(args, a, args', !last, peekToken.kind);
    }

    /** The comma after an argument, if one follows; last says that none did. */
    method CompileArgSep() returns (last: bool)
      requires Valid()
      modifies this
      ensures Valid() && cursor >= old(cursor)
      ensures last <==> old(peekToken).kind != TokenComma
      ensures last ==> peekToken == old(peekToken)
      ensures read == old(read) + Sep(!last)
    {
      ghost var r1, p := read, peekToken;
      last := peekToken.kind != TokenComma;
      if !last {
        NextToken();
        ReadSep(r1, p, read);
      } else {
        ReadNoSep(r1);
      }
    }

    // -------------------------------------------------------------------------
    // Statements

    /** The statement loop: statements up to a '}' that is left unread. */
    method CompileStatements() returns (ok: bool, ghost ss: seq<Stmt>)
      requires Valid()
      modifies this, vmwriter, labels
      decreases |tokens| - cursor, 3
      ensures Valid()
      ensures ok ==> cursor >= old(cursor) && peekToken.kind == TokenRBrace && read == old(read) + UStmts(ss)
      ensures ok ==> EmittedStmts(StmtsCode(ss, symtable.State(), old(labels.sequence)), old(vmwriter.ops))
      ensures ok ==> WfStmts(ss)
    {
      ss, ok := [], true;
      while peekToken.kind != TokenRBrace
        invariant Valid() && cursor >= old(cursor)
        invariant read == old(read) + UStmts(ss) && WfStmts(ss)
        invariant EmittedStmts(StmtsCode(ss, symtable.State(), old(labels.sequence)), old(vmwriter.ops))
        decreases |tokens| - cursor
      {
        ghost var o1, n1 := vmwriter.ops, labels.sequence;
        ghost var s: Stmt;
        ok, s := CompileStatement();
        if !ok {
          return;
        }
        ReadStmtsSnoc(old(read), ss, s, read);
        CodeStmtsSnoc(ss, s, symtable.State(), old(labels.sequence), old(vmwriter.ops), o1, n1, vmwriter.ops, labels.sequence);
        ss := ss + [s];
      }
    }

    /** `{ statements }` */
    method CompileBlock() returns (ok: bool, ghost ss: seq<Stmt>)
      requires Valid()
      modifies this, vmwriter, labels
      decreases |tokens| - cursor, 0
      ensures Valid()
      ensures ok ==> cursor > old(cursor) && read == old(read) + UBlock(ss)
      ensures ok ==> EmittedStmts(StmtsCode(ss, symtable.State(), old(labels.sequence)), old(vmwriter.ops))
      ensures ok ==> WfStmts(ss)
    {
      ss := [];
      ghost var r0, p := read, peekToken;
      ok := ExpectPeek({TokenLBrace});
      if !ok {
        return;
      }
      ok, ss := CompileStatements();
      if !ok {
        return;
      }
      ghost var q := peekToken;
      ok := ExpectPeek({TokenRBrace});
      ReadBlock(r0, p, ss, q, read);
    }

    /** compileStatement: the statement the next keyword starts; any other token makes engine.go panic. */
    method CompileStatement() returns (ok: bool, ghost s: Stmt)
      requires Valid()
      modifies this, vmwriter, labels
      decreases |tokens| - cursor, 2
      ensures Valid()
      ensures ok ==> cursor > old(cursor) && read == old(read) + UStmt(s)
      ensures ok ==> EmittedStmts(StmtCode(s, symtable.State(), old(labels.sequence)), old(vmwriter.ops))
      ensures ok ==> WfStmt(s)
    {
      s := Stmt.Return(None);
      match peekToken.kind
      case TokenDo =>
        ok, s := CompileDo();
      case TokenLet =>
        ok, s := CompileLet();
      case TokenWhile =>
        ok, s := CompileWhile();
      case TokenReturn =>
        ok, s := CompileReturn();
      case TokenIf =>
        ok, s := CompileIf();
      case _ =>
        ok := false;
    }

    /** `do expression ;` and the return value discarded into temp 0. */
    method CompileDo() returns (ok: bool, ghost s: Stmt)
      requires Valid() && peekToken.kind == TokenDo
      modifies this, vmwriter
      decreases |tokens| - cursor, 1
      ensures Valid()
      ensures ok ==> cursor > old(cursor) && read == old(read) + UStmt(s)
      ensures ok ==> EmittedStmts(StmtCode(s, symtable.State(), labels.sequence), old(vmwriter.ops))
      ensures ok ==> WfStmt(s)
    {
      s := Do(Expr(TNull, None, None, NoTail));
      ghost var r0, o0, p := read, vmwriter.ops, peekToken;
      ok := ExpectPeek({TokenDo});
      ghost var e: Expr;
      ok, e := CompileExpression();
      if !ok {
        return;
      }
      ghost var q := peekToken;
      ok := ExpectPeek({TokenSemicolon});
      if !ok {
        return;
      }
      vmwriter.WritePop(SegTemp, 0);
      s := Do(e);
      ReadDo(r0, p, e, q, read);
      CodeDo(e, symtable.State(), labels.sequence, o0, vmwriter.ops);
    }

    /** let's `[index]`: the variable pushed, the index added, and the sum into pointer 1. */
    method CompileLetIndex(entry: Option<Entry>) returns (ok: bool, leftIsArray: bool, ghost index: Option<Expr>)
      requires Valid()
      modifies this, vmwriter
      decreases |tokens| - cursor, 0
      ensures Valid()
      ensures ok ==> cursor >= old(cursor) && read == old(read) + UIndex(index) && leftIsArray == index.Some?
      ensures ok ==> Wrote(LetTargetCode(entry, index, symtable.State()), old(vmwriter.ops), vmwriter.ops)
      ensures ok && index.Some? ==> Maximal(index.value, TokenRBracket)
    {
      index := None;
      if peekToken.kind != TokenLBracket {
        return true, false, index;
      }
      leftIsArray := true;
      ghost var r0, o0, p := read, vmwriter.ops, peekToken;
      ok := ExpectPeek({TokenLBracket});
      if entry.None? {
        // Segment(entry.Scope) on a nil entry
        ok := false;
        return;
      }
      vmwriter.WritePush(ScopeSegment(entry.value.scope), entry.value.index);
      ghost var i: Expr;
      ok, i := CompileExpression();
      if !ok {
        return;
      }
      vmwriter.WriteArithmetic(CmdAdd);
      vmwriter.WritePop(SegPointer, 1);
      ghost var q := peekToken;
      ok := ExpectPeek({TokenRBracket});
      if !ok {
        return;
      }
      index := Some(i);
      ReadIndex(r0, p, i, q, read);
      CodeLetTarget(entry.value, i, symtable.State(), o0, vmwriter.ops);
    }

    /** `= expression ;` of a let. */
    method CompileLetValue() returns (ok: bool, ghost v: Expr)
      requires Valid()
      modifies this, vmwriter
      decreases |tokens| - cursor, 0
      ensures Valid()
      ensures ok ==> cursor > old(cursor) && read == old(read) + ULetValue(v)
      ensures ok ==> Emitted(ExprCode(v, symtable.State()), old(vmwriter.ops))
      ensures ok ==> Maximal(v, TokenSemicolon)
    {
      v := Expr(TNull, None, None, NoTail);
      ghost var r0, p := read, peekToken;
      ok := ExpectPeek({TokenEqual});
      if !ok {
        return;
      }
      ok, v := CompileExpression();
      if !ok {
        return;
      }
      ghost var q := peekToken;
      ok := ExpectPeek({TokenSemicolon});
      if !ok {
        return;
      }
      ReadLetValue(r0, p, v, q, read);
    }

    /** `let name ([index])? = expression ;` and the store into the variable or the element. */
    method CompileLet() returns (ok: bool, ghost s: Stmt)
      requires Valid() && peekToken.kind == TokenLet
      modifies this, vmwriter
      decreases |tokens| - cursor, 1
      ensures Valid()
      ensures ok ==> cursor > old(cursor) && read == old(read) + UStmt(s)
      ensures ok ==> EmittedStmts(StmtCode(s, symtable.State(), labels.sequence), old(vmwriter.ops))
      ensures ok ==> WfStmt(s)
    {
      s := Stmt.Return(None);
      ghost var r0, o0 := read, vmwriter.ops;
      var name;
      ok, name := CompileLetName();
      if !ok {
        return;
      }
      var entry := symtable.Find(name);
      var leftIsArray;
      ghost var index: Option<Expr>;
      ok, leftIsArray, index := CompileLetIndex(entry);
      if !ok {
        return;
      }
      ghost var o1 := vmwriter.ops;
      ghost var v: Expr;
      ok, v := CompileLetValue();
      if !ok {
        return;
      }
      ghost var o2 := vmwriter.ops;
      ok := WriteLetStore(entry, leftIsArray, index);
      if !ok {
        return;
      }
      s := Let(name, index, v);
      ReadLet(r0, name, index, v, read);
      CodeLet(name, index, v, symtable.State(), labels.sequence, o0, o1, o2, vmwriter.ops);
    }

    /** `let name` at the start of a let. */
    method CompileLetName() returns (ok: bool, name: string)
      requires Valid() && peekToken.kind == TokenLet
      modifies this
      ensures Valid()
      ensures ok ==> cursor > old(cursor) && read == old(read) + [Mark(TokenLet), Ident(name)]
    {
      name := "";
      ghost var r0, p := read, peekToken;
      ok := ExpectPeek({TokenLet});
      ghost var pid := peekToken;
      ok := ExpectPeek({TokenIdentifier});
      if !ok {
        return;
      }
      name := currentToken.literal;
      assert [Shape(p)] + [Shape(pid)] == [Mark(TokenLet), Ident(name)];
    }

    /** The store that ends a let: into that 0 for an element, else into the variable. */
    method WriteLetStore(entry: Option<Entry>, leftIsArray: bool, ghost index: Option<Expr>) returns (ok: bool)
      requires leftIsArray == index.Some? && (leftIsArray ==> entry.Some?)
      modifies vmwriter
      ensures ok <==> entry.Some?
      ensures ok ==> vmwriter.ops == old(vmwriter.ops) + [LetStore(entry.value, index)]
    {
      ok := true;
      if leftIsArray {
        vmwriter.WritePop(SegThat, 0);
      } else {
        if entry.None? {
          // Segment(entry.Scope) on a nil entry
          ok := false;
          return;
        }
        vmwriter.WritePop(ScopeSegment(entry.value.scope), entry.value.index);
      }
    }

    /** while's `( expression )`, with `not` and the jump to the end label written before the ')'. */
    method CompileWhileCondition(endLabel: string) returns (ok: bool, ghost c: Expr)
      requires Valid()
      modifies this, vmwriter
      decreases |tokens| - cursor, 0
      ensures Valid()
      ensures ok ==> cursor > old(cursor) && read == old(read) + UCond(c)
      ensures ok ==> ExprCode(c, symtable.State()).Some?
      ensures ok ==> vmwriter.ops == old(vmwriter.ops) + ExprCode(c, symtable.State()).value + [Arith(CmdNot)] + [IfGoto(endLabel)]
      ensures ok ==> Maximal(c, TokenRParen)
    {
      c := Expr(TNull, None, None, NoTail);
      ghost var r0, p := read, peekToken;
      ok := ExpectPeek({TokenLParen});
      if !ok {
        return;
      }
      ok, c := CompileExpression();
      if !ok {
        return;
      }
      vmwriter.WriteArithmetic(CmdNot);
      vmwriter.WriteIf(endLabel);
      ghost var q := peekToken;
      ok := ExpectPeek({TokenRParen});
      if !ok {
        return;
      }
      ReadCond(r0, p, c, q, read);
    }

    /** `while ( expression ) { statements }` between a loop label and an end label. */
    method CompileWhile() returns (ok: bool, ghost s: Stmt)
      requires Valid() && peekToken.kind == TokenWhile
      modifies this, vmwriter, labels
      decreases |tokens| - cursor, 1
      ensures Valid()
      ensures ok ==> cursor > old(cursor) && read == old(read) + UStmt(s)
      ensures ok ==> EmittedStmts(StmtCode(s, symtable.State(), old(labels.sequence)), old(vmwriter.ops))
      ensures ok ==> WfStmt(s)
    {
      s := Stmt.Return(None);
      ghost var r0, o0, n0, p := read, vmwriter.ops, labels.sequence, peekToken;
      ok := ExpectPeek({TokenWhile});
      var loopLabel := labels.GenLabel("loop");
      var endLabel := labels.GenLabel("end");
      assert loopLabel == LabelText("loop", n0) && endLabel == LabelText("end", n0 + 1);
      assert vmwriter.ops == o0 && labels.sequence == n0 + 2;
      ghost var c: Expr, body: seq<Stmt>, o1: seq<VmOp>, o2: seq<VmOp>;
      ok, c, body, o1, o2 := CompileWhileLoop(loopLabel, endLabel);
      if ok {
        s := While(c, body);
        ReadWhile(r0, p, c, body, read);
        CodeWhile(c, body, symtable.State(), old(labels.sequence), old(vmwriter.ops), o1, o2, labels.sequence, vmwriter.ops);
      }
    }

    /**
      The rest of a while after its labels are made: the loop label, the
      condition with its jump to the end, the block, the jump back and the end
      label. o1 and o2 are the operations written up to the block and up to
      the jump back.
    */
    method CompileWhileLoop(loopLabel: string, endLabel: string)
      returns (ok: bool, ghost c: Expr, ghost body: seq<Stmt>, ghost o1: seq<VmOp>, ghost o2: seq<VmOp>)
      requires Valid()
      modifies this, vmwriter, labels
      decreases |tokens| - cursor, 1
      ensures Valid()
      ensures ok ==> cursor > old(cursor) && read == old(read) + UCond(c) + UBlock(body)
      ensures ok ==> ExprCode(c, symtable.State()).Some?
      ensures ok ==> o1 == old(vmwriter.ops) + [Label(loopLabel)] + ExprCode(c, symtable.State()).value + [Arith(CmdNot)] + [IfGoto(endLabel)]
      ensures ok ==> WroteStmts(StmtsCode(body, symtable.State(), old(labels.sequence)), o1, o2, labels.sequence)
      ensures ok ==> vmwriter.ops == o2 + [Goto(loopLabel)] + [Label(endLabel)]
      ensures ok ==> WfStmt(While(c, body))
    {
      body, o1, o2 := [], [], [];
      vmwriter.WriteLabel(loopLabel);
      ok, c := CompileWhileCondition(endLabel);
      if !ok {
        return;
      }
      o1 := vmwriter.ops;
      ok, body := CompileBlock();
      if !ok {
        return;
      }
      o2 := vmwriter.ops;
      vmwriter.WriteGoto(loopLabel);
      vmwriter.WriteLabel(endLabel);
      WfWhile(c, body);
    }

    /** `return expression? ;`: a void return pushes constant 0 first. */
    method CompileReturn() returns (ok: bool, ghost s: Stmt)
      requires Valid() && peekToken.kind == TokenReturn
      modifies this, vmwriter
      decreases |tokens| - cursor, 1
      ensures Valid()
      ensures ok ==> cursor > old(cursor) && read == old(read) + UStmt(s)
      ensures ok ==> EmittedStmts(StmtCode(s, symtable.State(), labels.sequence), old(vmwriter.ops))
      ensures ok ==> WfStmt(s)
    {
      s := Stmt.Return(None);
      ghost var r0, o0, p := read, vmwriter.ops, peekToken;
      ok := ExpectPeek({TokenReturn});
      ghost var result: Option<Expr> := None;
      if peekToken.kind != TokenSemicolon {
        ghost var e: Expr;
        ok, e := CompileExpression();
        if !ok {
          return;
        }
        result := Some(e);
      } else {
        vmwriter.WritePush(SegConst, 0);
      }
      vmwriter.WriteReturn();
      ghost var q := peekToken;
      ok := ExpectPeek({TokenSemicolon});
      if !ok {
        return;
      }
      s := Stmt.Return(result);
      ReadReturn(r0, p, result, q, read);
      CodeReturn(result, symtable.State(), labels.sequence, o0, vmwriter.ops);
    }

    /** if's `( expression )`. */
    method CompileIfCondition() returns (ok: bool, ghost c: Expr)
      requires Valid()
      modifies this, vmwriter
      decreases |tokens| - cursor, 0
      ensures Valid()
      ensures ok ==> cursor > old(cursor) && read == old(read) + UCond(c)
      ensures ok ==> Emitted(ExprCode(c, symtable.State()), old(vmwriter.ops))
      ensures ok ==> Maximal(c, TokenRParen)
    {
      c := Expr(TNull, None, None, NoTail);
      ghost var r0, p := read, peekToken;
      ok := ExpectPeek({TokenLParen});
      if !ok {
        return;
      }
      ok, c := CompileExpression();
      if !ok {
        return;
      }
      ghost var q := peekToken;
      ok := ExpectPeek({TokenRParen});
      if !ok {
        return;
      }
      ReadCond(r0, p, c, q, read);
    }

    /** `else { statements }`, when the next token is else. */
    method CompileElse() returns (ok: bool, ghost hasElse: bool, ghost el: seq<Stmt>)
      requires Valid()
      modifies this, vmwriter, labels
      decreases |tokens| - cursor, 0
      ensures Valid()
      ensures ok ==> cursor >= old(cursor) && read == old(read) + UElse(hasElse, el)
      ensures ok ==> EmittedStmts(ElseCode(hasElse, el, symtable.State(), old(labels.sequence)), old(vmwriter.ops))
      ensures ok ==> WfStmts(el) && (!hasElse ==> el == [])
    {
      hasElse, el := false, [];
      if peekToken.kind != TokenElse {
        return true, hasElse, el;
      }
      ghost var r0, p := read, peekToken;
      ok := ExpectPeek({TokenElse});
      ok, el := CompileBlock();
      if !ok {
        return;
      }
      hasElse := true;
      ReadElse(r0, p, el, read);
    }

    /** if's then part: not, the jump to the else label, `{ statements }`, the jump to the end, and the else label. */
    method CompileThen(elseLabel: string, endLabel: string) returns (ok: bool, ghost th: seq<Stmt>)
      requires Valid()
      modifies this, vmwriter, labels
      decreases |tokens| - cursor, 1
      ensures Valid()
      ensures ok ==> cursor > old(cursor) && read == old(read) + UBlock(th)
      ensures ok ==> StmtsCode(th, symtable.State(), old(labels.sequence)).Some?
      ensures ok ==> labels.sequence == StmtsCode(th, symtable.State(), old(labels.sequence)).value.1
      ensures ok ==> vmwriter.ops == old(vmwriter.ops) + [Arith(CmdNot)] + [IfGoto(elseLabel)]
                       + StmtsCode(th, symtable.State(), old(labels.sequence)).value.0 + [Goto(endLabel)] + [Label(elseLabel)]
      ensures ok ==> WfStmts(th)
    {
      vmwriter.WriteArithmetic(CmdNot);
      vmwriter.WriteIf(elseLabel);
      ok, th := CompileBlock();
      if !ok {
        return;
      }
      vmwriter.WriteGoto(endLabel);
      vmwriter.WriteLabel(elseLabel);
    }

    /** `if ( expression ) { statements } (else { statements })?` with an else label and an end label. */
    method CompileIf() returns (ok: bool, ghost s: Stmt)
      requires Valid() && peekToken.kind == TokenIf
      modifies this, vmwriter, labels
      decreases |tokens| - cursor, 1
      ensures Valid()
      ensures ok ==> cursor > old(cursor) && read == old(read) + UStmt(s)
      ensures ok ==> EmittedStmts(StmtCode(s, symtable.State(), old(labels.sequence)), old(vmwriter.ops))
      ensures ok ==> WfStmt(s)
    {
      s := Stmt.Return(None);
      ghost var r0, o0, p := read, vmwriter.ops, peekToken;
      ok := ExpectPeek({TokenIf});
      ghost var c: Expr;
      ok, c := CompileIfCondition();
      if !ok {
        return;
      }
      ghost var n0 := labels.sequence;
      var elseLabel := labels.GenLabel("else");
      var endLabel := labels.GenLabel("end");
      ok, s := CompileIfBranches(elseLabel, endLabel, r0, p, c, o0, n0);
    }

    /** compileIf's then and else parts and end label, once the condition is written and the labels generated. */
    method CompileIfBranches(elseLabel: string, endLabel: string, ghost r0: seq<Tok>, ghost p: Tok, ghost c: Expr,
                             ghost o0: seq<VmOp>, ghost n0: nat) returns (ok: bool, ghost s: Stmt)
      requires Valid() && p.kind == TokenIf && read == r0 + [Shape(p)] + UCond(c)
      requires Emitted(ExprCode(c, symtable.State()), o0) && Maximal(c, TokenRParen)
      requires elseLabel == LabelText("else", n0) && endLabel == LabelText("end", n0 + 1) && labels.sequence == n0 + 2
      modifies this, vmwriter, labels
      decreases |tokens| - cursor, 2
      ensures Valid()
      ensures ok ==> cursor > old(cursor) && read == r0 + UStmt(s)
      ensures ok ==> EmittedStmts(StmtCode(s, symtable.State(), n0), o0)
      ensures ok ==> WfStmt(s)
    {
      s := Stmt.Return(None);
      ghost var o1 := vmwriter.ops;
      ghost var th: seq<Stmt>;
      ok, th := CompileThen(elseLabel, endLabel);
      if ok {
        ok, s := CompileIfEnd(endLabel, r0, p, c, th, o0, o1, n0);
      }
    }

    /** compileIf's else part and end label, once the then part is written. */
    method CompileIfEnd(endLabel: string, ghost r0: seq<Tok>, ghost p: Tok, ghost c: Expr, ghost th: seq<Stmt>,
                        ghost o0: seq<VmOp>, ghost o1: seq<VmOp>, ghost n0: nat) returns (ok: bool, ghost s: Stmt)
      requires Valid() && p.kind == TokenIf && read == r0 + [Shape(p)] + UCond(c) + UBlock(th)
      requires Maximal(c, TokenRParen) && WfStmts(th) && endLabel == LabelText("end", n0 + 1)
      requires ExprCode(c, symtable.State()).Some? && o1 == o0 + ExprCode(c, symtable.State()).value
      requires StmtsCode(th, symtable.State(), n0 + 2).Some? && labels.sequence == StmtsCode(th, symtable.State(), n0 + 2).value.1
      requires vmwriter.ops == o1 + [Arith(CmdNot)] + [IfGoto(LabelText("else", n0))] + StmtsCode(th, symtable.State(), n0 + 2).value.0
                                 + [Goto(endLabel)] + [Label(LabelText("else", n0))]
      modifies this, vmwriter, labels
      decreases |tokens| - cursor, 1
      ensures Valid()
      ensures ok ==> cursor >= old(cursor) && read == r0 + UStmt(s)
      ensures ok ==> EmittedStmts(StmtCode(s, symtable.State(), n0), o0)
      ensures ok ==> WfStmt(s)
    {
      s := Stmt.Return(None);
      ghost var o3 := vmwriter.ops;
      ghost var hasElse: bool, el: seq<Stmt>;
      ok, hasElse, el := CompileElse();
      if ok {
        ghost var o4 := vmwriter.ops;
        vmwriter.WriteLabel(endLabel);
        s := If(c, th, hasElse, el);
        WfIf(c, th, hasElse, el);
        ReadIf(r0, p, c, th, hasElse, el, read);
        CodeIf(c, th, hasElse, el, symtable.State(), n0, o0, o1, o3, o4, labels.sequence, vmwriter.ops);
      }
    }

    // -------------------------------------------------------------------------
    // Declarations

    /** compileClassVarDec's `(, name)*` loop: each further name defined with the same type and kind. */
    method CompileClassVarNames(typ: string, scope: Scope) returns (ok: bool, n: nat, ghost more: seq<string>)
      requires Valid()
      modifies this, symtable
      ensures Valid()
      ensures ok ==> cursor >= old(cursor) && read == old(read) + UMore(more) && n == |more|
      ensures ok ==> symtable.State() == DefinedAll(old(symtable.State()), more, typ, scope)
    {
      ok, n, more := true, 0, [];
      ghost var r1, t1 := read, symtable.State();
      while peekToken.kind == TokenComma
        invariant Valid() && cursor >= old(cursor)
        invariant read == r1 + UMore(more) && n == |more|
        invariant symtable.State() == DefinedAll(t1, more, typ, scope)
        decreases |tokens| - cursor
      {
        ghost var pc := peekToken;
        ok := ExpectPeek({TokenComma});
        ghost var pi := peekToken;
        ok := ExpectPeek({TokenIdentifier});
        if !ok {
          return;
        }
        var name := currentToken.literal;
        symtable.Define(name, typ, scope);
        n := n + 1;
        ReadMoreSnoc(r1, more, pc, pi, read);
        DefinedAllSnoc(t1, more, name, typ, scope);
        more := more + [name];
      }
    }

    /** The `type name` pair that starts a parameter and follows `static`, `field` or `var`. */
    method CompileTypedName() returns (ok: bool, p: Param)
      requires Valid()
      modifies this
      ensures Valid()
      ensures ok ==> cursor == old(cursor) + 2 && read == old(read) + UParam(p) && IsTypeKind(p.typ.kind)
    {
      p := Param(Mark(TokenInt), "");
      ghost var r0, pt := read, peekToken;
      ok := ExpectPeek({TokenIdentifier, TokenInt, TokenChar, TokenBoolean});
      if !ok {
        return;
      }
      var typTok := currentToken;
      assert IsTypeKind(typTok.kind);
      ghost var pn := peekToken;
      ok := ExpectPeek({TokenIdentifier});
      if !ok {
        return;
      }
      p := Param(typTok, currentToken.literal);
      assert [Shape(pt)] + [Shape(pn)] == UParam(p);
      Assoc(r0, [Shape(pt)], [Shape(pn)]);
    }

    /**
      The names part of compileClassVarDec, once storage and type are read:
      the first name and each further one defined in the kind `scope`, the
      field count, and the closing ';'.
    */
    method DefineClassVarNames(storage: Tok, p: Param, scope: Scope) returns (ok: bool, nFields: nat, ghost more: seq<string>)
      requires Valid() && StorageScope(storage.literal) == Some(scope)
      modifies this, symtable
      ensures Valid()
      ensures ok ==> cursor > old(cursor) && read == old(read) + UMore(more) + [Mark(TokenSemicolon)]
      ensures ok ==> ClassVarDecEffect(ClassVarDec(storage, p.typ, p.name, more), old(symtable.State())) == Some((symtable.State(), nFields))
    {
      nFields, more := 0, [];
      ghost var t0 := symtable.State();
      var typ := p.typ.literal;
      symtable.Define(p.name, typ, scope);
      if storage.literal == "field" {
        nFields := nFields + 1;
      }
      ghost var r1, t1 := read, symtable.State();
      var n: nat;
      ok, n, more := CompileClassVarNames(typ, scope);
      if !ok {
        return;
      }
      nFields := nFields + n;
      ClassVarDecDefines(ClassVarDec(storage, p.typ, p.name, more), scope, t0, t1, symtable.State(), nFields);
      ghost var q := peekToken;
      ok := ExpectPeek({TokenSemicolon});
      if !ok {
        return;
      }
      ReadSemicolon(r1, UMore(more), q, read);
    }

    /** compileClassVarDec: `static|field type name (, name)* ;`, each name defined in the class scope. */
    method CompileClassVarDec() returns (ok: bool, nFields: nat, ghost v: ClassVarDec)
      requires Valid()
      modifies this, symtable
      ensures Valid()
      ensures ok ==> cursor > old(cursor) && read == old(read) + UClassVarDec(v) && WfClassVarDec(v)
      ensures ok ==> ClassVarDecEffect(v, old(symtable.State())) == Some((symtable.State(), nFields))
    {
      nFields, v := 0, ClassVarDec(Mark(TokenField), Mark(TokenInt), "", []);
      ghost var r0 := read;
      ok := ExpectPeek({TokenField, TokenStatic});
      if !ok {
        return;
      }
      var storageTok := currentToken;
      assert storageTok.kind == TokenField || storageTok.kind == TokenStatic;
      var p;
      ok, p := CompileTypedName();
      if !ok {
        return;
      }
      ghost var r1 := read;
      var scope := StorageScope(storageTok.literal);
      if scope.None? {
        // storageToScope panics on any other storage class
        ok := false;
        return;
      }
      ghost var more: seq<string>;
      ok, nFields, more := DefineClassVarNames(storageTok, p, scope.value);
      if !ok {
        return;
      }
      v := ClassVarDec(storageTok, p.typ, p.name, more);
      ReadClassVarDec(r0, r1, storageTok, p, more, read);
    }

    /** One more class variable declaration after `vars`, read and defined on top of what they did. */
    method CompileNextClassVarDec(ghost r0: seq<Tok>, ghost t0: Tables, ghost vars: seq<ClassVarDec>, nFields: nat)
      returns (ok: bool, nFields': nat, ghost vars': seq<ClassVarDec>)
      requires Valid() && read == r0 + UClassVarDecs(vars) && WfClassVarDecs(vars)
      requires ClassVarDecsEffect(vars, t0) == Some((symtable.State(), nFields))
      modifies this, symtable
      ensures Valid()
      ensures ok ==> cursor > old(cursor) && read == r0 + UClassVarDecs(vars') && WfClassVarDecs(vars')
      ensures ok ==> ClassVarDecsEffect(vars', t0) == Some((symtable.State(), nFields'))
    {
      ghost var t1 := symtable.State();
      var n: nat;
      ghost var v: ClassVarDec;
      ok, n, v := CompileClassVarDec();
      nFields', vars' := nFields + n, vars + [v];
      if !ok {
        return;
      }
      ClassVarDecsEffectSnoc(vars, v, vars', t0, t1, nFields, symtable.State(), n, nFields');
      ReadClassVarDecsSnoc(r0, vars, v, read);
      WfClassVarDecsSnoc(vars, v);
    }

    /** The class variable declarations at the head of a class body, and the field count compileClass sums from them. */
    method CompileClassVarDecs() returns (ok: bool, nFields: nat, ghost vars: seq<ClassVarDec>)
      requires Valid()
      modifies this, symtable
      ensures Valid()
      ensures ok ==> cursor >= old(cursor) && read == old(read) + UClassVarDecs(vars)
      ensures ok ==> WfClassVarDecs(vars)
      ensures ok ==> ClassVarDecsEffect(vars, old(symtable.State())) == Some((symtable.State(), nFields))
    {
      ok, nFields, vars := true, 0, [];
      ghost var r0, t0 := read, symtable.State();
      while peekToken.kind == TokenStatic || peekToken.kind == TokenField
        invariant Valid() && cursor >= old(cursor)
        invariant read == r0 + UClassVarDecs(vars)
        invariant WfClassVarDecs(vars)
        invariant ClassVarDecsEffect(vars, t0) == Some((symtable.State(), nFields))
        decreases |tokens| - cursor
      {
        ok, nFields, vars := CompileNextClassVarDec(r0, t0, vars, nFields);
        if !ok {
          return;
        }
      }
    }

    /** One parameter of compileParameterList, `type name`, defined as an argument after `ps`. */
    method CompileParam(ghost r1: seq<Tok>, ghost t0: Tables, ghost ps: seq<Param>) returns (ok: bool, p: Param)
      requires Valid() && read == r1 + UParamsRest(ps) && TypedParams(ps)
      requires symtable.State() == ParamsEffect(ps, t0)
      modifies this, symtable
      ensures Valid()
      ensures ok ==> cursor > old(cursor) && read == r1 + UParams(ps + [p]) && TypedParams(ps + [p])
      ensures ok ==> symtable.State() == ParamsEffect(ps + [p], t0)
    {
      ok, p := CompileTypedName();
      if !ok {
        return;
      }
      symtable.Define(p.name, p.typ.literal, ScopeArg);
      ReadParam(r1, ps, p, read);
      TypedParamsSnoc(ps, p);
      ParamsEffectSnoc(ps, p, t0);
    }

    /** compileParameterList: `( type name, ... )`, each name defined as an argument; the list may end in a comma. */
    method CompileParameterList() returns (ok: bool, ghost ps: seq<Param>, ghost tc: bool)
      requires Valid()
      modifies this, symtable
      ensures Valid()
      ensures ok ==> cursor > old(cursor) && read == old(read) + UParameterList(ps, tc)
      ensures ok ==> (tc ==> |ps| > 0) && TypedParams(ps)
      ensures ok ==> symtable.State() == ParamsEffect(ps, old(symtable.State()))
    {
      ps, tc := [], false;
      ghost var r0, t0, p0 := read, symtable.State(), peekToken;
      ok := ExpectPeek({TokenLParen});
      if !ok {
        return;
      }
      ghost var r1 := read;
      // done: the loop stopped at a parameter with no comma after it (the break in compileParameterList)
      var done := false;
      while !done && peekToken.kind != TokenRParen
        invariant Valid() && cursor > old(cursor)
        invariant done ==> ps != []
        invariant read == r1 + (if done then UParams(ps) else UParamsRest(ps))
        invariant symtable.State() == ParamsEffect(ps, t0)
        invariant TypedParams(ps)
        decreases |tokens| - cursor, if done then 0 else 1
      {
        var p: Param;
        ok, p := CompileParam(r1, t0, ps);
        if !ok {
          return;
        }
        ps := ps + [p];
        if peekToken.kind == TokenComma {
          ghost var pc := peekToken;
          ok := ExpectPeek({TokenComma});
          ReadParamComma(r1, ps, pc, read);
        } else {
          done := true;
        }
      }
      tc := !done && |ps| > 0;
      ghost var q := peekToken;
      ok := ExpectPeek({TokenRParen});
      if !ok {
        return;
      }
      ReadParameterList(r0, r1, p0, ps, done, q, read);
    }

    /** compileLocalVarDec's `(, name)*` loop, which runs until the ';' and demands a comma before each name. */
    method CompileVarNames(typ: string) returns (ok: bool, n: nat, ghost more: seq<string>)
      requires Valid()
      modifies this, symtable
      ensures Valid()
      ensures ok ==> cursor >= old(cursor) && peekToken.kind == TokenSemicolon
      ensures ok ==> read == old(read) + UMore(more) && n == |more|
      ensures ok ==> symtable.State() == DefinedAll(old(symtable.State()), more, typ, ScopeVar)
    {
      ok, n, more := true, 0, [];
      ghost var r1, t1 := read, symtable.State();
      while peekToken.kind != TokenSemicolon
        invariant Valid() && cursor >= old(cursor)
        invariant read == r1 + UMore(more) && n == |more|
        invariant symtable.State() == DefinedAll(t1, more, typ, ScopeVar)
        decreases |tokens| - cursor
      {
        ghost var pc := peekToken;
        ok := ExpectPeek({TokenComma});
        if !ok {
          return;
        }
        ghost var pi := peekToken;
        ok := ExpectPeek({TokenIdentifier});
        if !ok {
          return;
        }
        var name := currentToken.literal;
        symtable.Define(name, typ, ScopeVar);
        n := n + 1;
        ReadMoreSnoc(r1, more, pc, pi, read);
        DefinedAllSnoc(t1, more, name, typ, ScopeVar);
        more := more + [name];
      }
    }

    /** compileLocalVarDec: `var type name (, name)* ;`, each name defined as a local. */
    method CompileLocalVarDec() returns (ok: bool, nLocals: nat, ghost vd: VarDec)
      requires Valid()
      modifies this, symtable
      ensures Valid()
      ensures ok ==> cursor > old(cursor) && read == old(read) + UVarDec(vd) && IsTypeKind(vd.typ.kind)
      ensures ok ==> VarDecEffect(vd, old(symtable.State())) == (symtable.State(), nLocals)
    {
      nLocals, vd := 0, VarDec(Mark(TokenInt), "", []);
      ghost var r0, t0, pv := read, symtable.State(), peekToken;
      ok := ExpectPeek({TokenVar});
      if !ok {
        return;
      }
      var p;
      ok, p := CompileTypedName();
      if !ok {
        return;
      }
      var typ := p.typ.literal;
      symtable.Define(p.name, typ, ScopeVar);
      nLocals := nLocals + 1;
      ghost var r1, t1 := read, symtable.State();
      var n: nat;
      ghost var more: seq<string>;
      ok, n, more := CompileVarNames(typ);
      if !ok {
        return;
      }
      nLocals := nLocals + n;
      ghost var q := peekToken;
      ok := ExpectPeek({TokenSemicolon});
      vd := VarDec(p.typ, p.name, more);
      ReadVarDec(r0, r1, pv, p, more, q, read);
      VarDecDefines(vd, t0, t1, symtable.State(), nLocals);
    }

    /** One more `var` line after `locals`, read and defined on top of what they did. */
    method CompileNextLocalVarDec(ghost r0: seq<Tok>, ghost t0: Tables, ghost locals: seq<VarDec>, nLocals: nat)
      returns (ok: bool, nLocals': nat, ghost locals': seq<VarDec>)
      requires Valid() && read == r0 + UVarDecs(locals) && TypedLocals(locals)
      requires LocalsEffect(locals, t0) == (symtable.State(), nLocals)
      modifies this, symtable
      ensures Valid()
      ensures ok ==> cursor > old(cursor) && read == r0 + UVarDecs(locals') && TypedLocals(locals')
      ensures ok ==> LocalsEffect(locals', t0) == (symtable.State(), nLocals')
    {
      ghost var t1 := symtable.State();
      var n: nat;
      ghost var vd: VarDec;
      ok, n, vd := CompileLocalVarDec();
      nLocals', locals' := nLocals + n, locals + [vd];
      if !ok {
        return;
      }
      ReadVarDecsSnoc(r0, locals, vd, read);
      TypedLocalsSnoc(locals, vd);
      LocalsEffectSnoc(locals, vd, locals', t0, t1, nLocals, symtable.State(), n, nLocals');
    }

    /** The `var` lines at the head of a subroutine body, and the local count compileSubroutine sums from them. */
    method CompileLocals() returns (ok: bool, nLocals: nat, ghost locals: seq<VarDec>)
      requires Valid()
      modifies this, symtable
      ensures Valid()
      ensures ok ==> cursor >= old(cursor) && read == old(read) + UVarDecs(locals)
      ensures ok ==> TypedLocals(locals)
      ensures ok ==> LocalsEffect(locals, old(symtable.State())) == (symtable.State(), nLocals)
    {
      ok, nLocals, locals := true, 0, [];
      ghost var r0, t0 := read, symtable.State();
      while peekToken.kind == TokenVar
        invariant Valid() && cursor >= old(cursor)
        invariant read == r0 + UVarDecs(locals)
        invariant TypedLocals(locals)
        invariant LocalsEffect(locals, t0) == (symtable.State(), nLocals)
        decreases |tokens| - cursor
      {
        ok, nLocals, locals := CompileNextLocalVarDec(r0, t0, locals, nLocals);
        if !ok {
          return;
        }
      }
    }

    /**
      The declaration part of compileSubroutine: its kind, return type and
      name, then the parameter list. Returns the kind literal and the
      qualified name `className.name`; sig carries no locals and no body.
    */
    method CompileSignature(className: string) returns (ok: bool, kind: string, name: string, ghost sig: Subroutine)
      requires Valid()
      modifies this, symtable
      ensures Valid()
      ensures ok ==> cursor > old(cursor) && read == old(read) + USignature(sig)
      ensures ok ==> kind == sig.kind.literal && name == className + "." + sig.name && sig.locals == [] && sig.body == []
      ensures ok ==> WfSubroutine(sig)
      ensures ok ==> symtable.State() == ParamsEffect(sig.params, old(symtable.State()))
    {
      kind, name := "", "";
      sig := Subroutine(Mark(TokenFunction), Mark(TokenVoid), "", [], false, [], []);
      var kindTok, nameTok;
      ghost var retTok;
      ok, kindTok, retTok, nameTok := CompileSignatureHead();
      if !ok {
        return;
      }
      kind := kindTok.literal;
      name := className + "." + nameTok.literal;
      ghost var r1 := read;
      ghost var ps: seq<Param>, tc: bool;
      ok, ps, tc := CompileParameterList();
      if !ok {
        return;
      }
      // The tree keeps the return type as the engine sees it: `void` carries no literal.
      sig := Subroutine(kindTok, Shape(retTok), nameTok.literal, ps, tc, [], []);
      Assoc(old(read), [Shape(kindTok), Shape(retTok), Ident(nameTok.literal)], UParameterList(ps, tc));
    }

    /** The start of compileSubroutine: the kind, the return type and the name. */
    method CompileSignatureHead() returns (ok: bool, kindTok: Tok, ghost retTok: Tok, nameTok: Tok)
      requires Valid()
      modifies this
      ensures Valid()
      ensures ok ==> cursor == old(cursor) + 3 && read == old(read) + [Shape(kindTok), Shape(retTok), Ident(nameTok.literal)]
      ensures ok ==> kindTok.kind in {TokenConstructor, TokenFunction, TokenMethod}
      ensures ok ==> retTok.kind == TokenVoid || IsTypeKind(retTok.kind)
    {
      ghost var r0 := read;
      kindTok, retTok, nameTok := currentToken, currentToken, currentToken;
      ok := ExpectPeek({TokenConstructor, TokenFunction, TokenMethod});
      if !ok {
        return;
      }
      kindTok := currentToken;
      ok := ExpectPeek({TokenVoid, TokenIdentifier, TokenInt, TokenChar, TokenBoolean});
      if !ok {
        return;
      }
      retTok := currentToken;
      ok := ExpectPeek({TokenIdentifier});
      if !ok {
        return;
      }
      nameTok := currentToken;
      ReadHead(r0, Shape(kindTok), Shape(retTok), Shape(nameTok), read);
    }

    /** The constructor prologue: `this = Memory.alloc(nFields)`. */
    method EmitPrologue(kind: string, nFields: nat)
      modifies vmwriter
      ensures vmwriter.ops == old(vmwriter.ops) + Prologue(kind, nFields)
    {
      if kind == "constructor" {
        vmwriter.WritePush(SegConst, nFields);
        vmwriter.WriteCall("Memory.alloc", 1);
        vmwriter.WritePop(SegPointer, 0);
      }
    }

    /**
      The body part of compileSubroutine: `{`, the var lines, then
      `function name nLocals` and the prologue, then the statements and `}`.
    */
    method CompileSubroutineBody(kind: string, name: string, nFields: nat)
      returns (ok: bool, nLocals: nat, ghost locals: seq<VarDec>, ghost body: seq<Stmt>)
      requires Valid()
      modifies this, vmwriter, symtable, labels
      ensures Valid()
      ensures ok ==> cursor > old(cursor) && TypedLocals(locals)
      ensures ok ==> read == old(read) + [Mark(TokenLBrace)] + UVarDecs(locals) + UStmts(body) + [Mark(TokenRBrace)]
      ensures ok ==> LocalsEffect(locals, old(symtable.State())) == (symtable.State(), nLocals)
      ensures ok ==> WroteStmts(StmtsCode(body, symtable.State(), old(labels.sequence)),
        old(vmwriter.ops) + [Function(name, nLocals)] + Prologue(kind, nFields), vmwriter.ops, labels.sequence)
      ensures ok ==> WfStmts(body)
    {
      body := [];
      ok, nLocals, locals := CompileBodyLocals();
      if !ok {
        return;
      }
      ok, body := CompileBodyStatements(kind, name, nFields, nLocals);
    }

    /** The start of the body: `{` and the var lines, which define the locals. */
    method CompileBodyLocals() returns (ok: bool, nLocals: nat, ghost locals: seq<VarDec>)
      requires Valid()
      modifies this, symtable
      ensures Valid()
      ensures ok ==> cursor > old(cursor) && TypedLocals(locals)
      ensures ok ==> read == old(read) + [Mark(TokenLBrace)] + UVarDecs(locals)
      ensures ok ==> LocalsEffect(locals, old(symtable.State())) == (symtable.State(), nLocals)
    {
      nLocals, locals := 0, [];
      ok := ExpectPeek({TokenLBrace});
      if !ok {
        return;
      }
      ok, nLocals, locals := CompileLocals();
    }

    /** The rest of the body: `function name nLocals`, the prologue, the statements and `}`. */
    method CompileBodyStatements(kind: string, name: string, nFields: nat, nLocals: nat) returns (ok: bool, ghost body: seq<Stmt>)
      requires Valid()
      modifies this, vmwriter, labels
      ensures Valid()
      ensures ok ==> cursor > old(cursor) && read == old(read) + UStmts(body) + [Mark(TokenRBrace)]
      ensures ok ==> WroteStmts(StmtsCode(body, symtable.State(), old(labels.sequence)),
        old(vmwriter.ops) + [Function(name, nLocals)] + Prologue(kind, nFields), vmwriter.ops, labels.sequence)
      ensures ok ==> WfStmts(body)
    {
      vmwriter.WriteFunction(name, nLocals);
      EmitPrologue(kind, nFields);
      ok, body := CompileStatements();
      if !ok {
        return;
      }
      ok := ExpectPeek({TokenRBrace});
    }

    /** compileSubroutine: a new local scope, the signature, then the body. */
    method CompileSubroutine(className: string, nFields: nat) returns (ok: bool, ghost s: Subroutine)
      requires Valid()
      modifies this, vmwriter, symtable, labels
      ensures Valid()
      ensures ok ==> cursor > old(cursor) && read == old(read) + USubroutine(s) && WfSubroutine(s)
      ensures ok ==> EmittedDecl(SubroutineCode(s, className, nFields, old(symtable.State()), old(labels.sequence)), old(vmwriter.ops))
    {
      ghost var r0, o0 := read, vmwriter.ops;
      symtable.ResetLocalScope();
      var kind, name;
      ghost var sig: Subroutine;
      ok, kind, name, sig := CompileSignature(className);
      s := sig;
      if !ok {
        return;
      }
      ghost var r1, t1 := read, symtable.State();
      var nLocals: nat;
      ghost var locals: seq<VarDec>, body: seq<Stmt>;
      ok, nLocals, locals, body := CompileSubroutineBody(kind, name, nFields);
      if !ok {
        return;
      }
      s := Subroutine(sig.kind, sig.ret, sig.name, sig.params, sig.trailingComma, locals, body);
      ReadSubroutine(r0, r1, s, read);
      CodeSubroutine(s, className, nFields, old(symtable.State()), old(labels.sequence), o0, t1,
        symtable.State(), nLocals, vmwriter.ops, labels.sequence);
    }

    /** One more subroutine after `subs`, its code written after theirs. */
    method CompileNextSubroutine(className: string, nFields: nat, ghost r0: seq<Tok>, ghost t0: Tables, ghost n0: nat,
      ghost o0: seq<VmOp>, ghost subs: seq<Subroutine>) returns (ok: bool, ghost subs': seq<Subroutine>)
      requires Valid() && read == r0 + USubroutines(subs) && WfSubroutines(subs)
      requires EmittedDecl(SubroutinesCode(subs, className, nFields, t0, n0), o0)
      modifies this, vmwriter, symtable, labels
      ensures Valid()
      ensures ok ==> cursor > old(cursor) && read == r0 + USubroutines(subs') && WfSubroutines(subs')
      ensures ok ==> EmittedDecl(SubroutinesCode(subs', className, nFields, t0, n0), o0)
    {
      ghost var o1, t1, n1 := vmwriter.ops, symtable.State(), labels.sequence;
      ghost var sub: Subroutine;
      ok, sub := CompileSubroutine(className, nFields);
      subs' := subs + [sub];
      if !ok {
        return;
      }
      ReadSubroutinesSnoc(r0, subs, sub, read);
      WfSubroutinesSnoc(subs, sub);
      CodeSubroutinesSnoc(subs, sub, className, nFields, t0, n0, o0, o1, t1, n1, vmwriter.ops, symtable.State(), labels.sequence);
    }

    /** The subroutine declarations of a class, each compiled with the class name and its field count. */
    method CompileSubroutines(className: string, nFields: nat) returns (ok: bool, ghost subs: seq<Subroutine>)
      requires Valid()
      modifies this, vmwriter, symtable, labels
      ensures Valid()
      ensures ok ==> cursor >= old(cursor) && read == old(read) + USubroutines(subs)
      ensures ok ==> WfSubroutines(subs)
      ensures ok ==> EmittedDecl(SubroutinesCode(subs, className, nFields, old(symtable.State()), old(labels.sequence)), old(vmwriter.ops))
    {
      ok, subs := true, [];
      ghost var r0, t0, n0, o0 := read, symtable.State(), labels.sequence, vmwriter.ops;
      while peekToken.kind == TokenConstructor || peekToken.kind == TokenFunction || peekToken.kind == TokenMethod
        invariant Valid() && cursor >= old(cursor)
        invariant read == r0 + USubroutines(subs) && WfSubroutines(subs)
        invariant EmittedDecl(SubroutinesCode(subs, className, nFields, t0, n0), o0)
        decreases |tokens| - cursor
      {
        ok, subs := CompileNextSubroutine(className, nFields, r0, t0, n0, o0, subs);
        if !ok {
          return;
        }
      }
    }

    /** compileClass (what Compile runs): `class Name {`, the class variables, the subroutines, `}`. */
    method CompileClass() returns (ok: bool, ghost c: Class)
      requires Valid()
      modifies this, vmwriter, symtable, labels
      ensures Valid()
      ensures ok ==> read == old(read) + UClass(c) && WfClass(c)
      ensures ok ==> EmittedDecl(ClassCode(c, old(symtable.State()), old(labels.sequence)), old(vmwriter.ops))
    {
      c := Class("", [], []);
      ghost var r0 := read;
      var className;
      ok, className := CompileClassHead();
      if !ok {
        return;
      }
      ghost var r1 := read;
      var nFields: nat;
      ghost var vars: seq<ClassVarDec>;
      ok, nFields, vars := CompileClassVarDecs();
      if !ok {
        return;
      }
      ghost var t1 := symtable.State();
      ghost var subs: seq<Subroutine>;
      ok, subs := CompileSubroutines(className, nFields);
      if !ok {
        return;
      }
      ghost var q := peekToken;
      ok := ExpectPeek({TokenRBrace});
      if !ok {
        return;
      }
      c := Class(className, vars, subs);
      ReadClass(r0, r1, c, q, read);
    }

    /** The start of compileClass: `class`, the class name and `{`. */
    method CompileClassHead() returns (ok: bool, className: string)
      requires Valid()
      modifies this
      ensures Valid()
      ensures ok ==> read == old(read) + [Mark(TokenClass), Ident(className), Mark(TokenLBrace)]
    {
      className := "";
      ghost var r0, pc := read, peekToken;
      ok := ExpectPeek({TokenClass});
      if !ok {
        return;
      }
      ghost var pn := peekToken;
      ok := ExpectPeek({TokenIdentifier});
      if !ok {
        return;
      }
      className := currentToken.literal;
      ghost var pl := peekToken;
      ok := ExpectPeek({TokenLBrace});
      if !ok {
        return;
      }
      ReadHead(r0, Shape(pc), Shape(pn), Shape(pl), read);
    }
  }
}
