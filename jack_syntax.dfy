/**
  What the Jack compilation engine reads (compiler/engine.go): its token
  kinds, the parse trees of what each compile method consumes, and Unparse,
  which lays a tree back out as the token sequence it was read from.

  The engine never looks at the literal of most tokens (a '{' is only its
  kind), so the engine is described on token *shapes*: the literal is kept
  only for the kinds whose literal the engine reads.
*/
module JackSyntax {
  import opened Common

  /** The engine's token kinds: one per keyword and per symbol, plus names, numbers, strings and end of input. */
  datatype Kind =
    | TokenEOF
    | TokenClass | TokenConstructor | TokenFunction | TokenMethod
    | TokenField | TokenStatic | TokenVar
    | TokenInt | TokenChar | TokenBoolean | TokenVoid
    | TokenTrue | TokenFalse | TokenNull | TokenThis
    | TokenLet | TokenDo | TokenIf | TokenElse | TokenWhile | TokenReturn
    | TokenLBrace | TokenRBrace | TokenLParen | TokenRParen | TokenLBracket | TokenRBracket
    | TokenDot | TokenComma | TokenSemicolon
    | TokenPlus | TokenMinus | TokenAsterisk | TokenSlash | TokenAmpersand | TokenVerticalLine
    | TokenLT | TokenGT | TokenEqual | TokenTilda
    | TokenIdentifier | TokenNumber | TokenString

  datatype Tok = Tok(kind: Kind, literal: string)

  /** The kinds whose literal the engine reads: names, constants, storage and subroutine kinds, and type names. */
  predicate LiteralMatters(k: Kind) {
    k == TokenIdentifier || k == TokenNumber || k == TokenString ||
    k == TokenField || k == TokenStatic ||
    k == TokenConstructor || k == TokenFunction || k == TokenMethod ||
    k == TokenInt || k == TokenChar || k == TokenBoolean
  }

  /** A token as the engine sees it. */
  function Shape(t: Tok): Tok {
    if LiteralMatters(t.kind) then t else Tok(t.kind, "")
  }

  /** A token of a kind whose literal is ignored. */
  function Mark(k: Kind): Tok {
    Tok(k, "")
  }

  function Ident(name: string): Tok {
    Tok(TokenIdentifier, name)
  }

  /** The kinds a variable's type may have; a return type may also be void. */
  predicate IsTypeKind(k: Kind) {
    k == TokenIdentifier || k == TokenInt || k == TokenChar || k == TokenBoolean
  }

  // ---------------------------------------------------------------------------
  // Expressions

  /** The nine binary operators of compileExpression's second switch. */
  datatype BinaryOp = OpPlus | OpMinus | OpTimes | OpDivide | OpAnd | OpOr | OpLt | OpGt | OpEq

  function OpKind(op: BinaryOp): Kind {
    match op
    case OpPlus => TokenPlus
    case OpMinus => TokenMinus
    case OpTimes => TokenAsterisk
    case OpDivide => TokenSlash
    case OpAnd => TokenAmpersand
    case OpOr => TokenVerticalLine
    case OpLt => TokenLT
    case OpGt => TokenGT
    case OpEq => TokenEqual
  }

  /** The operator a token starts after a term: the cases of compileExpression's second switch. */
  function BinaryOpOf(k: Kind): (r: Option<BinaryOp>)
    ensures r.Some? ==> OpKind(r.value) == k
    ensures r.None? ==> forall op: BinaryOp :: OpKind(op) != k
  {
    match k
    case TokenPlus => Some(OpPlus)
    case TokenMinus => Some(OpMinus)
    case TokenAsterisk => Some(OpTimes)
    case TokenSlash => Some(OpDivide)
    case TokenAmpersand => Some(OpAnd)
    case TokenVerticalLine => Some(OpOr)
    case TokenLT => Some(OpLt)
    case TokenGT => Some(OpGt)
    case TokenEqual => Some(OpEq)
    case _ => None
  }

  /** What compileExpression's first switch reads. */
  datatype Term =
    | TNull
    | TThis
    | TTrue
    | TFalse
    | TName(name: string)
    | TStr(s: string)
    | TNum(lit: string)
    | TParen(inner: Expr)
    | TNot(operand: Expr)
    | TNeg(operand: Expr)

  /**
    One compileExpression call: a term, an optional `.name`, an optional
    `[index]`, and then at most one tail: a binary operator with the whole
    rest of the expression, or a call's argument list.
  */
  datatype Expr = Expr(term: Term, member: Option<string>, index: Option<Expr>, tail: Tail)

  datatype Tail =
    | NoTail
    | BinOp(op: BinaryOp, rhs: Expr)
    | CallArgs(args: seq<Expr>, trailingComma: bool)

  function UTerm(t: Term): seq<Tok>
    decreases t
  {
    match t
    case TNull => [Mark(TokenNull)]
    case TThis => [Mark(TokenThis)]
    case TTrue => [Mark(TokenTrue)]
    case TFalse => [Mark(TokenFalse)]
    case TName(n) => [Ident(n)]
    case TStr(s) => [Tok(TokenString, s)]
    case TNum(l) => [Tok(TokenNumber, l)]
    case TParen(e) => [Mark(TokenLParen)] + UExpr(e) + [Mark(TokenRParen)]
    case TNot(e) => [Mark(TokenTilda)] + UExpr(e)
    case TNeg(e) => [Mark(TokenMinus)] + UExpr(e)
  }

  function UExpr(e: Expr): seq<Tok>
    decreases e
  {
    UTerm(e.term) + UMember(e.member) + UIndex(e.index) + UTail(e.tail)
  }

  /** `.name` */
  function UMember(member: Option<string>): seq<Tok> {
    match member
    case None => []
    case Some(m) => [Mark(TokenDot), Ident(m)]
  }

  /** `[index]` */
  function UIndex(index: Option<Expr>): seq<Tok>
    decreases index
  {
    match index
    case None => []
    case Some(i) => [Mark(TokenLBracket)] + UExpr(i) + [Mark(TokenRBracket)]
  }

  function UTail(t: Tail): seq<Tok>
    decreases t
  {
    match t
    case NoTail => []
    case BinOp(op, rhs) => [Mark(OpKind(op))] + UExpr(rhs)
    case CallArgs(args, tc) =>
      [Mark(TokenLParen)] + UArgs(args) + (if tc then [Mark(TokenComma)] else []) + [Mark(TokenRParen)]
  }

  /** Expressions separated by commas. */
  function UArgs(args: seq<Expr>): seq<Tok>
    decreases args
  {
    if |args| == 0 then []
    else if |args| == 1 then UExpr(args[0])
    else UArgs(args[..|args| - 1]) + [Mark(TokenComma)] + UExpr(args[|args| - 1])
  }

  // ---------------------------------------------------------------------------
  // Where compileExpression stops

  /** The kind of the first token of what a tail reads, or k, the kind after the expression, when it reads nothing. */
  function TailStart(t: Tail, k: Kind): Kind {
    match t
    case NoTail => k
    case BinOp(op, _) => OpKind(op)
    case CallArgs(_, _) => TokenLParen
  }

  /** The kind of the token after an expression's `[index]` position. */
  function IndexStart(index: Option<Expr>, t: Tail, k: Kind): Kind {
    if index.Some? then TokenLBracket else TailStart(t, k)
  }

  /** The kind of the token after an expression's term. */
  function MemberStart(member: Option<string>, index: Option<Expr>, t: Tail, k: Kind): Kind {
    if member.Some? then TokenDot else IndexStart(index, t, k)
  }

  /** What follows the argument at position j of n: a comma, or after the last one without a trailing comma, `close`. */
  function ArgFollow(j: nat, n: nat, tc: bool, close: Kind): Kind {
    if j == n - 1 && !tc then close else TokenComma
  }

  /**
    The tree is the one compileExpression reads when the token after it has
    kind k: a part is absent only when the next token does not start it
    (no `.name` unless '.' follows the term, no `[index]` unless '[' follows,
    no tail unless an operator or '(' follows), and every nested expression
    stops where its own compileExpression call does. An operand of `~` or `-`
    stops at the token after the term, so it takes the whole rest of the
    expression unless it ends in a call or an index.
  */
  predicate Maximal(e: Expr, k: Kind)
    decreases e
  {
    TermMaximal(e.term, MemberStart(e.member, e.index, e.tail, k)) &&
    (e.member.None? ==> IndexStart(e.index, e.tail, k) != TokenDot) &&
    (e.index.None? ==> TailStart(e.tail, k) != TokenLBracket) &&
    (e.index.Some? ==> Maximal(e.index.value, TokenRBracket)) &&
    TailMaximal(e.tail, k)
  }

  /** A term followed by a token of kind k. */
  predicate TermMaximal(t: Term, k: Kind)
    decreases t
  {
    match t
    case TParen(inner) => Maximal(inner, TokenRParen)
    case TNot(operand) => Maximal(operand, k)
    case TNeg(operand) => Maximal(operand, k)
    case _ => true
  }

  /** No tail only when neither an operator nor '(' follows; a right operand stops where the expression does. */
  predicate TailMaximal(t: Tail, k: Kind)
    decreases t
  {
    match t
    case NoTail => BinaryOpOf(k).None? && k != TokenLParen
    case BinOp(_, rhs) => Maximal(rhs, k)
    case CallArgs(args, tc) => ArgsMaximal(args, tc)
  }

  /** Each argument stops at its comma or at ')'; a comma needs an argument before it. */
  predicate ArgsMaximal(args: seq<Expr>, tc: bool)
    decreases args
  {
    (tc ==> |args| > 0) &&
    forall j :: 0 <= j < |args| ==> Maximal(args[j], ArgFollow(j, |args|, tc, TokenRParen))
  }

  // ---------------------------------------------------------------------------
  // Statements

  datatype Stmt =
    | Do(call: Expr)
    | Let(name: string, index: Option<Expr>, value: Expr)
    | While(cond: Expr, body: seq<Stmt>)
    | Return(result: Option<Expr>)
    | If(cond: Expr, thenBody: seq<Stmt>, hasElse: bool, elseBody: seq<Stmt>)

  function UBlock(ss: seq<Stmt>): seq<Tok>
    decreases ss, 1
  {
    [Mark(TokenLBrace)] + UStmts(ss) + [Mark(TokenRBrace)]
  }

  function UStmt(s: Stmt): seq<Tok>
    decreases s
  {
    match s
    case Do(e) => [Mark(TokenDo)] + UExpr(e) + [Mark(TokenSemicolon)]
    case Let(n, idx, v) =>
      [Mark(TokenLet), Ident(n)] + UIndex(idx) + [Mark(TokenEqual)] + UExpr(v) + [Mark(TokenSemicolon)]
    case While(c, body) =>
      [Mark(TokenWhile), Mark(TokenLParen)] + UExpr(c) + [Mark(TokenRParen)] + UBlock(body)
    case Return(v) =>
      [Mark(TokenReturn)] + (match v case None => [] case Some(e) => UExpr(e)) + [Mark(TokenSemicolon)]
    case If(c, th, hasElse, el) =>
      [Mark(TokenIf), Mark(TokenLParen)] + UExpr(c) + [Mark(TokenRParen)] + UBlock(th)
      + (if hasElse then [Mark(TokenElse)] + UBlock(el) else [])
  }

  function UStmts(ss: seq<Stmt>): seq<Tok>
    decreases ss, 0
  {
    if ss == [] then [] else UStmts(ss[..|ss| - 1]) + UStmt(ss[|ss| - 1])
  }

  /** Each expression of a statement is the one compileExpression reads up to the token that closes it. */
  predicate WfStmt(s: Stmt)
    decreases s, 1
  {
    match s
    case Do(e) => Maximal(e, TokenSemicolon)
    case Let(_, idx, v) => (idx.Some? ==> Maximal(idx.value, TokenRBracket)) && Maximal(v, TokenSemicolon)
    case While(c, body) => Maximal(c, TokenRParen) && WfStmts(body)
    case Return(v) => v.Some? ==> Maximal(v.value, TokenSemicolon)
    case If(c, th, hasElse, el) => Maximal(c, TokenRParen) && WfStmts(th) && WfStmts(el) && (!hasElse ==> el == [])
  }

  predicate WfStmts(ss: seq<Stmt>)
    decreases ss, 0
  {
    ss == [] || (WfStmts(ss[..|ss| - 1]) && WfStmt(ss[|ss| - 1]))
  }

  // ---------------------------------------------------------------------------
  // Declarations

  /** `static|field type name (, name)* ;` */
  datatype ClassVarDec = ClassVarDec(storage: Tok, typ: Tok, first: string, more: seq<string>)

  datatype Param = Param(typ: Tok, name: string)

  /** `var type name (, name)* ;` */
  datatype VarDec = VarDec(typ: Tok, first: string, more: seq<string>)

  datatype Subroutine = Subroutine(
    kind: Tok, ret: Tok, name: string,
    params: seq<Param>, trailingComma: bool,
    locals: seq<VarDec>, body: seq<Stmt>)

  datatype Class = Class(name: string, vars: seq<ClassVarDec>, subs: seq<Subroutine>)

  /** `, name` for each further name. */
  function UMore(names: seq<string>): seq<Tok> {
    if names == [] then [] else UMore(names[..|names| - 1]) + [Mark(TokenComma), Ident(names[|names| - 1])]
  }

  function UClassVarDec(v: ClassVarDec): seq<Tok> {
    [Shape(v.storage), Shape(v.typ), Ident(v.first)] + UMore(v.more) + [Mark(TokenSemicolon)]
  }

  function UClassVarDecs(vs: seq<ClassVarDec>): seq<Tok> {
    if vs == [] then [] else UClassVarDecs(vs[..|vs| - 1]) + UClassVarDec(vs[|vs| - 1])
  }

  function UParam(p: Param): seq<Tok> {
    [Shape(p.typ), Ident(p.name)]
  }

  /** Parameters separated by commas. */
  function UParams(ps: seq<Param>): seq<Tok> {
    if ps == [] then [] else UParamsRest(ps[..|ps| - 1]) + UParam(ps[|ps| - 1])
  }

  /** Parameters each followed by a comma. */
  function UParamsRest(ps: seq<Param>): seq<Tok> {
    if ps == [] then [] else UParamsRest(ps[..|ps| - 1]) + UParam(ps[|ps| - 1]) + [Mark(TokenComma)]
  }

  function UParameterList(ps: seq<Param>, tc: bool): seq<Tok> {
    [Mark(TokenLParen)] + UParams(ps) + (if tc then [Mark(TokenComma)] else []) + [Mark(TokenRParen)]
  }

  function UVarDec(v: VarDec): seq<Tok> {
    [Mark(TokenVar), Shape(v.typ), Ident(v.first)] + UMore(v.more) + [Mark(TokenSemicolon)]
  }

  function UVarDecs(vs: seq<VarDec>): seq<Tok> {
    if vs == [] then [] else UVarDecs(vs[..|vs| - 1]) + UVarDec(vs[|vs| - 1])
  }

  /** `kind ret name ( parameters )`: what a subroutine reads before its body. */
  function USignature(s: Subroutine): seq<Tok> {
    [Shape(s.kind), Shape(s.ret), Ident(s.name)] + UParameterList(s.params, s.trailingComma)
  }

  function USubroutine(s: Subroutine): seq<Tok> {
    USignature(s) + [Mark(TokenLBrace)] + UVarDecs(s.locals) + UStmts(s.body) + [Mark(TokenRBrace)]
  }

  function USubroutines(ss: seq<Subroutine>): seq<Tok> {
    if ss == [] then [] else USubroutines(ss[..|ss| - 1]) + USubroutine(ss[|ss| - 1])
  }

  function UClass(c: Class): seq<Tok> {
    [Mark(TokenClass), Ident(c.name), Mark(TokenLBrace)] + UClassVarDecs(c.vars) + USubroutines(c.subs) + [Mark(TokenRBrace)]
  }

  // ---------------------------------------------------------------------------
  // The token kinds each declaration position accepts (the expectPeek lists)

  predicate WfClassVarDec(v: ClassVarDec) {
    (v.storage.kind == TokenField || v.storage.kind == TokenStatic) && IsTypeKind(v.typ.kind)
  }

  predicate TypedParams(ps: seq<Param>) {
    forall i :: 0 <= i < |ps| ==> IsTypeKind(ps[i].typ.kind)
  }

  predicate TypedLocals(vs: seq<VarDec>) {
    forall i :: 0 <= i < |vs| ==> IsTypeKind(vs[i].typ.kind)
  }

  predicate WfSubroutine(s: Subroutine) {
    (s.kind.kind == TokenConstructor || s.kind.kind == TokenFunction || s.kind.kind == TokenMethod) &&
    (s.ret.kind == TokenVoid || IsTypeKind(s.ret.kind)) && Shape(s.ret) == s.ret &&
    TypedParams(s.params) && TypedLocals(s.locals) &&
    (s.trailingComma ==> |s.params| > 0) && WfStmts(s.body)
  }

  predicate WfClassVarDecs(vs: seq<ClassVarDec>) {
    forall i :: 0 <= i < |vs| ==> WfClassVarDec(vs[i])
  }

  predicate WfSubroutines(ss: seq<Subroutine>) {
    forall i :: 0 <= i < |ss| ==> WfSubroutine(ss[i])
  }

  predicate WfClass(c: Class) {
    WfClassVarDecs(c.vars) && WfSubroutines(c.subs)
  }

  // ---------------------------------------------------------------------------
  // Properties of the layout

  /** An argument list is always closed by ')', so a call is the last thing its expression reads. */
  lemma {:induction false} CallTailEndsWithParen(args: seq<Expr>, tc: bool)
    ensures var u := UTail(CallArgs(args, tc)); |u| >= 2 && u[0] == Mark(TokenLParen) && u[|u| - 1] == Mark(TokenRParen)
  {
  }

  /** An expression with a binary operator reads the operator directly after its term, member and index. */
  lemma {:induction false} BinaryOperatorPosition(e: Expr)
    requires e.tail.BinOp?
    ensures var head := |UExpr(e)| - |UExpr(e.tail.rhs)| - 1;
      0 <= head && UExpr(e)[head] == Mark(OpKind(e.tail.op)) &&
      UExpr(e)[head + 1..] == UExpr(e.tail.rhs)
  {
    var pre := UTerm(e.term) + UMember(e.member) + UIndex(e.index);
    assert UExpr(e) == pre + [Mark(OpKind(e.tail.op))] + UExpr(e.tail.rhs);
  }

  /** Every expression reads at least one token. */
  lemma {:induction false} ExprNonEmpty(e: Expr)
    ensures |UExpr(e)| > 0
  {
    match e.term
    case TParen(_) =>
    case TNot(_) =>
    case TNeg(_) =>
    case _ =>
  }
}
