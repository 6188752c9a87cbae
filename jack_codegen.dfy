/**
  The VM code the Jack compilation engine emits (compiler/engine.go), as a
  reference compiler over the parse trees of JackSyntax. Each function
  threads what the engine threads: the symbol table for declarations, the
  label counter for statements. None is a run the engine aborts (Die, a
  panic, or a nil symbol-table entry dereferenced).
*/
module JackCodegen {
  import opened Common
  import opened Text
  import opened JackVM
  import opened JackSymbols
  import opened JackSyntax

  // ---------------------------------------------------------------------------
  // Segments of variables

  /** The integer value of each Scope constant (iota order). */
  function ScopeNumber(s: Scope): nat {
    match s
    case ScopeStatic => 0
    case ScopeField => 1
    case ScopeArg => 2
    case ScopeVar => 3
  }

  /**
    Segment(entry.Scope) as written: a Go conversion from an integer type to a
    string type, which yields the one-character string whose code point is
    the integer.
  */
  function RawScopeSegment(s: Scope): string {
    [ScopeNumber(s) as char]
  }

  /** The raw conversion never yields a segment name, so every push or pop of a variable names no segment. */
  lemma {:induction false} RawScopeSegmentNamesNoSegment(s: Scope)
    ensures |RawScopeSegment(s)| == 1 && RawScopeSegment(s) !in Segments
  {
  }

  /** The segment each kind of variable lives in. */
  function ScopeSegment(s: Scope): (seg: string)
    ensures seg in Segments
  {
    match s
    case ScopeStatic => SegStatic
    case ScopeField => SegThis
    case ScopeArg => SegArg
    case ScopeVar => SegLocal
  }

  /** The four kinds map to four different segments, none of them constant, pointer, that or temp. */
  lemma {:induction false} ScopeSegmentInjective(a: Scope, b: Scope)
    ensures ScopeSegment(a) == ScopeSegment(b) ==> a == b
    ensures ScopeSegment(a) !in [SegConst, SegPointer, SegThat, SegTemp]
  {
  }

  function PushVar(e: Entry): VmOp {
    Push(ScopeSegment(e.scope), e.index)
  }

  function PopVar(e: Entry): VmOp {
    Pop(ScopeSegment(e.scope), e.index)
  }

  // ---------------------------------------------------------------------------
  // Labels

  /** genLabel: the prefix, a dot, and the counter in decimal. */
  function LabelText(prefix: string, n: nat): string {
    prefix + "." + NatToString(n)
  }

  /** Two labels are equal only when both prefix and number are: a counter value never repeats a label. */
  lemma {:induction false} LabelTextInjective(p: string, i: nat, q: string, j: nat)
    requires LabelText(p, i) == LabelText(q, j)
    ensures p == q && i == j
  {
    NatToStringHasNo(i, '.');
    NatToStringHasNo(j, '.');
    assert LabelText(p, i) == p + ['.'] + NatToString(i);
    assert LabelText(q, j) == q + ['.'] + NatToString(j);
    SplitAtLastSeparator(p, NatToString(i), q, NatToString(j), '.');
    NatToStringInjective(i, j);
  }

  // ---------------------------------------------------------------------------
  // Expressions

  function OpCode(op: BinaryOp): VmOp {
    match op
    case OpPlus => Arith(CmdAdd)
    case OpMinus => Arith(CmdSub)
    case OpTimes => Call("Math.multiply", 2)
    case OpDivide => Call("Math.divide", 2)
    case OpAnd => Arith(CmdAnd)
    case OpOr => Arith(CmdOr)
    case OpLt => Arith(CmdLt)
    case OpGt => Arith(CmdGt)
    case OpEq => Arith(CmdEq)
  }

  /** `push constant code; call String.appendChar 2` for each character, in order. */
  function AppendChars(s: string): seq<VmOp> {
    if s == [] then []
    else AppendChars(s[..|s| - 1]) + [Push(SegConst, s[|s| - 1] as int), Call("String.appendChar", 2)]
  }

  function StringCode(s: string): seq<VmOp> {
    [Push(SegConst, |s|), Call("String.new", 1)] + AppendChars(s)
  }

  /**
    What compileExpression's first switch leaves behind: the code emitted,
    the call name begun (an unresolved identifier), and the entry found.
  */
  datatype TermResult = TermResult(code: seq<VmOp>, fn: string, entry: Option<Entry>)

  function TermCode(t: Term, tb: Tables): Option<TermResult>
    decreases t
  {
    match t
    case TNull => Some(TermResult([Push(SegConst, 0)], "", None))
    case TThis => Some(TermResult([Push(SegPointer, 0)], "", None))
    case TTrue => Some(TermResult([Push(SegConst, 1), Arith(CmdNeg)], "", None))
    case TFalse => Some(TermResult([Push(SegConst, 0)], "", None))
    case TName(n) =>
      (match Lookup(tb, n)
       case None => Some(TermResult([], n, None))
       case Some(e) => Some(TermResult([PushVar(e)], "", Some(e))))
    case TStr(s) => Some(TermResult(StringCode(s), "", None))
    case TNum(l) =>
      var v :- Atoi(l);
      Some(TermResult([Push(SegConst, v)], "", None))
    case TParen(e) =>
      var c :- ExprCode(e, tb);
      Some(TermResult(c, "", None))
    case TNot(e) =>
      var c :- ExprCode(e, tb);
      Some(TermResult(c + [Arith(CmdNot)], "", None))
    case TNeg(e) =>
      var c :- ExprCode(e, tb);
      Some(TermResult(c + [Arith(CmdNeg)], "", None))
  }

  /** The call name after an optional `.member`. */
  function WithMember(fn: string, member: Option<string>): string {
    match member
    case None => fn
    case Some(m) => fn + "." + m
  }

  /** `[index]` read as a value: index code, add, then THAT points at the element, which is pushed. */
  function IndexCode(index: Option<Expr>, tb: Tables): Option<seq<VmOp>>
    decreases index
  {
    match index
    case None => Some([])
    case Some(i) =>
      var c :- ExprCode(i, tb);
      Some(c + [Arith(CmdAdd), Pop(SegPointer, 1), Push(SegThat, 0)])
  }

  function ExprCode(e: Expr, tb: Tables): Option<seq<VmOp>>
    decreases e
  {
    var r :- TermCode(e.term, tb);
    var ic :- IndexCode(e.index, tb);
    var tc :- TailCode(e.tail, WithMember(r.fn, e.member), r.entry, tb);
    Some(r.code + ic + tc)
  }

  /**
    The callee and argument count of a call: a name starting with '.' is a
    method of the variable just pushed, called on its type with one extra
    argument; without an entry for that variable the engine dereferences nil.
  */
  function Callee(fn: string, entry: Option<Entry>, nArgs: nat): Option<(string, nat)> {
    if HasPrefix(fn, ".") then
      match entry
      case None => None
      case Some(en) => Some((en.typ + fn, nArgs + 1))
    else Some((fn, nArgs))
  }

  function TailCode(t: Tail, fn: string, entry: Option<Entry>, tb: Tables): Option<seq<VmOp>>
    decreases t
  {
    match t
    case NoTail => Some([])
    case BinOp(op, rhs) =>
      var c :- ExprCode(rhs, tb);
      Some(c + [OpCode(op)])
    case CallArgs(args, _) =>
      var (name, n) :- Callee(fn, entry, |args|);
      var c :- ArgsCode(args, tb);
      Some(c + [Call(name, n)])
  }

  function ArgsCode(args: seq<Expr>, tb: Tables): Option<seq<VmOp>>
    decreases args
  {
    if args == [] then Some([])
    else
      var p :- ArgsCode(args[..|args| - 1], tb);
      var c :- ExprCode(args[|args| - 1], tb);
      Some(p + c)
  }

  // ---------------------------------------------------------------------------
  // Statements

  /** The code, and the label counter after it, of one statement started at counter n. */
  function StmtCode(s: Stmt, tb: Tables, n: nat): Option<(seq<VmOp>, nat)>
    decreases s
  {
    match s
    case Do(e) =>
      var c :- ExprCode(e, tb);
      Some((c + [Pop(SegTemp, 0)], n))
    case Let(name, index, value) =>
      var entry :- Lookup(tb, name);
      var vc :- ExprCode(value, tb);
      (match index
       case None => Some((vc + [PopVar(entry)], n))
       case Some(i) =>
         var ic :- ExprCode(i, tb);
         Some(([PushVar(entry)] + ic + [Arith(CmdAdd), Pop(SegPointer, 1)] + vc + [Pop(SegThat, 0)], n)))
    case While(cond, body) =>
      var loop, end := LabelText("loop", n), LabelText("end", n + 1);
      var cc :- ExprCode(cond, tb);
      var (bc, n') :- StmtsCode(body, tb, n + 2);
      Some(([Label(loop)] + cc + [Arith(CmdNot), IfGoto(end)] + bc + [Goto(loop), Label(end)], n'))
    case Return(result) =>
      (match result
       case None => Some(([Push(SegConst, 0), VmOp.Return], n))
       case Some(e) =>
         var c :- ExprCode(e, tb);
         Some((c + [VmOp.Return], n)))
    case If(cond, th, hasElse, el) =>
      var cc :- ExprCode(cond, tb);
      var elseLabel, end := LabelText("else", n), LabelText("end", n + 1);
      var (tc, n1) :- StmtsCode(th, tb, n + 2);
      var (ec, n2) :- if hasElse then StmtsCode(el, tb, n1) else Some(([], n1));
      Some((cc + [Arith(CmdNot), IfGoto(elseLabel)] + tc + [Goto(end), Label(elseLabel)] + ec + [Label(end)], n2))
  }

  function StmtsCode(ss: seq<Stmt>, tb: Tables, n: nat): Option<(seq<VmOp>, nat)>
    decreases ss
  {
    if ss == [] then Some(([], n))
    else
      var (p, n1) :- StmtsCode(ss[..|ss| - 1], tb, n);
      var (c, n2) :- StmtCode(ss[|ss| - 1], tb, n1);
      Some((p + c, n2))
  }

  // ---------------------------------------------------------------------------
  // Declarations

  /** storageToScope: "field" and "static" are the only storage classes. */
  function StorageScope(storage: string): Option<Scope> {
    if storage == "field" then Some(ScopeField)
    else if storage == "static" then Some(ScopeStatic)
    else None
  }

  /**
    One class variable declaration: its names defined in order, and its
    contribution to nFields, which counts the first name only for `field`
    but every further name whatever the storage.
  */
  function ClassVarDecEffect(v: ClassVarDec, tb: Tables): Option<(Tables, nat)> {
    var scope :- StorageScope(v.storage.literal);
    var t1 := DefinedAll(Defined(tb, v.first, v.typ.literal, scope), v.more, v.typ.literal, scope);
    Some((t1, (if v.storage.literal == "field" then 1 else 0) + |v.more|))
  }

  function ClassVarDecsEffect(vs: seq<ClassVarDec>, tb: Tables): Option<(Tables, nat)> {
    if vs == [] then Some((tb, 0))
    else
      var (t1, n1) :- ClassVarDecsEffect(vs[..|vs| - 1], tb);
      var (t2, n2) :- ClassVarDecEffect(vs[|vs| - 1], t1);
      Some((t2, n1 + n2))
  }

  /** Parameters are defined as arguments, in order. */
  function ParamsEffect(ps: seq<Param>, tb: Tables): Tables {
    if ps == [] then tb
    else
      var p := ps[|ps| - 1];
      Defined(ParamsEffect(ps[..|ps| - 1], tb), p.name, p.typ.literal, ScopeArg)
  }

  /** One var line: its names defined in order as locals, and how many there are. */
  function VarDecEffect(v: VarDec, tb: Tables): (Tables, nat) {
    (DefinedAll(Defined(tb, v.first, v.typ.literal, ScopeVar), v.more, v.typ.literal, ScopeVar), 1 + |v.more|)
  }

  /** The table after the var lines, and the number of names they declare. */
  function LocalsEffect(vs: seq<VarDec>, tb: Tables): (Tables, nat) {
    if vs == [] then (tb, 0)
    else
      var (t1, n1) := LocalsEffect(vs[..|vs| - 1], tb);
      var (t2, n2) := VarDecEffect(vs[|vs| - 1], t1);
      (t2, n1 + n2)
  }

  /** `push constant nFields; call Memory.alloc 1; pop pointer 0`, for a subroutine whose kind literal is "constructor". */
  function Prologue(kind: string, nFields: int): seq<VmOp> {
    if kind == "constructor" then [Push(SegConst, nFields), Call("Memory.alloc", 1), Pop(SegPointer, 0)] else []
  }

  /** A subroutine: its code, the table after it, and the label counter after it. */
  function SubroutineCode(s: Subroutine, className: string, nFields: int, tb: Tables, n: nat): Option<(seq<VmOp>, Tables, nat)> {
    var t1 := ParamsEffect(s.params, Reset(tb));
    var (t2, nLocals) := LocalsEffect(s.locals, t1);
    var (bc, n') :- StmtsCode(s.body, t2, n);
    Some(([Function(className + "." + s.name, nLocals)] + Prologue(s.kind.literal, nFields) + bc, t2, n'))
  }

  function SubroutinesCode(ss: seq<Subroutine>, className: string, nFields: int, tb: Tables, n: nat): Option<(seq<VmOp>, Tables, nat)> {
    if ss == [] then Some(([], tb, n))
    else
      var (p, t1, n1) :- SubroutinesCode(ss[..|ss| - 1], className, nFields, tb, n);
      var (c, t2, n2) :- SubroutineCode(ss[|ss| - 1], className, nFields, t1, n1);
      Some((p + c, t2, n2))
  }

  function ClassCode(c: Class, tb: Tables, n: nat): Option<(seq<VmOp>, Tables, nat)> {
    var (t1, nFields) :- ClassVarDecsEffect(c.vars, tb);
    SubroutinesCode(c.subs, c.name, nFields, t1, n)
  }
}
