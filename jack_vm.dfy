/**
  The VM operations the Jack compiler emits and the VMWriter that prints
  them one per line (compiler/vmwriter.go).
*/
module JackVM {
  import opened Text

  // The eight segment names.
  const SegConst: string := "constant"
  const SegLocal: string := "local"
  const SegArg: string := "argument"
  const SegStatic: string := "static"
  const SegThis: string := "this"
  const SegThat: string := "that"
  const SegPointer: string := "pointer"
  const SegTemp: string := "temp"

  const Segments: seq<string> := [SegConst, SegLocal, SegArg, SegStatic, SegThis, SegThat, SegPointer, SegTemp]

  datatype ArithCmd = CmdAdd | CmdSub | CmdNeg | CmdEq | CmdGt | CmdLt | CmdAnd | CmdOr | CmdNot

  function ArithName(c: ArithCmd): string {
    match c
    case CmdAdd => "add"
    case CmdSub => "sub"
    case CmdNeg => "neg"
    case CmdEq => "eq"
    case CmdGt => "gt"
    case CmdLt => "lt"
    case CmdAnd => "and"
    case CmdOr => "or"
    case CmdNot => "not"
  }

  const ArithNames: seq<string> := ["add", "sub", "neg", "eq", "gt", "lt", "and", "or", "not"]

  /** One line of VM code, as the VMWriter methods print it. */
  datatype VmOp =
    | Push(seg: string, index: int)
    | Pop(seg: string, index: int)
    | Arith(cmd: ArithCmd)
    | Label(name: string)
    | Goto(name: string)
    | IfGoto(name: string)
    | Call(name: string, nArgs: int)
    | Function(name: string, nLocals: int)
    | Return

  /** The text of an operation's line, without the line break. */
  function Line(op: VmOp): string {
    match op
    case Push(seg, i) => "push " + seg + " " + IntToString(i)
    case Pop(seg, i) => "pop " + seg + " " + IntToString(i)
    case Arith(c) => ArithName(c)
    case Label(l) => "label " + l
    case Goto(l) => "goto " + l
    case IfGoto(l) => "if-goto " + l
    case Call(name, n) => "call " + name + " " + IntToString(n)
    case Function(name, n) => "function " + name + " " + IntToString(n)
    case Return => "return"
  }

  /** The lines written for a list of operations, in order. */
  function Lines(ops: seq<VmOp>): (ls: seq<string>)
    ensures |ls| == |ops| && forall i :: 0 <= i < |ops| ==> ls[i] == Line(ops[i])
  {
    seq(|ops|, i requires 0 <= i < |ops| => Line(ops[i]))
  }

  /** Lines of text, each followed by "\n". */
  function LinesText(ls: seq<string>): string {
    if ls == [] then "" else LinesText(ls[..|ls| - 1]) + ls[|ls| - 1] + "\n"
  }

  /** The text written for a list of operations: each line followed by "\n". */
  function Render(ops: seq<VmOp>): string {
    LinesText(Lines(ops))
  }

  /** The names an operation carries (segment, label or function name). */
  function Names(op: VmOp): seq<string> {
    match op
    case Push(seg, _) => [seg]
    case Pop(seg, _) => [seg]
    case Label(l) => [l]
    case Goto(l) => [l]
    case IfGoto(l) => [l]
    case Call(name, _) => [name]
    case Function(name, _) => [name]
    case _ => []
  }

  /** A line holds no line break as long as the names in it hold none. */
  lemma {:induction false} LineHasNoBreak(op: VmOp)
    requires forall k :: 0 <= k < |Names(op)| ==> '\n' !in Names(op)[k]
    ensures '\n' !in Line(op)
  {
    assert |Names(op)| > 0 ==> '\n' !in Names(op)[0];
    match op
    case Push(seg, i) => NumberHasNoBreak(i);
    case Pop(seg, i) =>
      NumberHasNoBreak(i);
      assert '\n' !in "pop " && '\n' !in " ";
    case Call(name, n) => NumberHasNoBreak(n);
    case Function(name, n) => NumberHasNoBreak(n);
    case _ =>
  }

  lemma {:induction false} NumberHasNoBreak(i: int)
    ensures '\n' !in IntToString(i)
  {
    NatToStringHasNo(if i < 0 then -i else i, '\n');
    assert '\n' !in "-";
  }

  /** Text is append-only: the text of two runs of lines is the concatenation of their texts. */
  lemma {:induction false} LinesTextAppend(a: seq<string>, b: seq<string>)
    ensures LinesText(a + b) == LinesText(a) + LinesText(b)
    decreases |b|
  {
    if b == [] {
      assert a + b == a;
    } else {
      assert (a + b)[..|a + b| - 1] == a + b[..|b| - 1];
      LinesTextAppend(a, b[..|b| - 1]);
    }
  }

  /** The text cut at each line break: the piece before each "\n", then what follows the last one, if anything. */
  function SplitLines(s: string): seq<string>
    decreases |s|
  {
    match IndexOf(s, "\n")
    case None => if s == [] then [] else [s]
    case Some(j) => [s[..j]] + SplitLines(s[j + 1..])
  }

  /** Lines without breaks in them come back from their text: one "\n" per line, and the lines between them. */
  lemma {:induction false} SplitLinesText(ls: seq<string>)
    requires forall i :: 0 <= i < |ls| ==> '\n' !in ls[i]
    ensures multiset(LinesText(ls))['\n'] == |ls|
    ensures SplitLines(LinesText(ls)) == ls
    decreases |ls|
  {
    if ls == [] {
      IndexOfAbsent("", '\n');
    } else {
      var l, rest := ls[0], ls[1..];
      assert ls == [l] + rest;
      LinesTextAppend([l], rest);
      assert LinesText([l]) == l + "\n" by { assert [l][..0] == []; }
      SplitLinesText(rest);
      var r := LinesText(rest);
      var s := LinesText(ls);
      assert s == l + ['\n'] + r;
      IndexOfChar(l, '\n', r);
      assert s[..|l|] == l && s[|l| + 1..] == r;
    }
  }

  /**
    The written text holds the operations line by line: when no segment,
    label or function name holds a line break, it has exactly one break per
    operation, and cutting it at the breaks gives each operation's line, in
    order.
  */
  lemma {:induction false} RenderSplits(ops: seq<VmOp>)
    requires forall i :: 0 <= i < |ops| ==> forall k :: 0 <= k < |Names(ops[i])| ==> '\n' !in Names(ops[i])[k]
    ensures multiset(Render(ops))['\n'] == |ops|
    ensures SplitLines(Render(ops)) == Lines(ops)
  {
    var ls := Lines(ops);
    forall i | 0 <= i < |ls| ensures '\n' !in ls[i] {
      LineHasNoBreak(ops[i]);
    }
    SplitLinesText(ls);
  }

  /** The segment names are eight distinct words. */
  lemma {:induction false} SegmentNamesDistinct()
    ensures forall i, j :: 0 <= i < j < |Segments| ==> Segments[i] != Segments[j]
    ensures forall i :: 0 <= i < |Segments| ==> |Segments[i]| > 0 && SpaceFree(Segments[i])
  {
  }

  /** An arithmetic line is one of the nine bare command names, and different commands print differently. */
  lemma {:induction false} ArithLines(c: ArithCmd, d: ArithCmd)
    ensures Line(Arith(c)) in ArithNames
    ensures Line(Arith(c)) == Line(Arith(d)) ==> c == d
  {
  }

  /**
    The writer over its output stream: `ops` are the lines written so far,
    in call order, and Out() is the text they make.
  */
  class VMWriter {
    var ops: seq<VmOp>

    function Out(): string
      reads this
    {
      Render(ops)
    }

    constructor ()
      ensures ops == [] && Out() == ""
    {
      ops := [];
    }

    /** writef: one formatted line and its line break, after everything written before. */
    method Write(op: VmOp)
      modifies this
      ensures ops == old(ops) + [op]
      ensures Out() == old(Out()) + Line(op) + "\n"
    {
      ops := ops + [op];
      assert Lines(ops) == Lines(old(ops)) + [Line(op)];
      LinesTextAppend(Lines(old(ops)), [Line(op)]);
    }

    method WritePush(seg: string, index: int)
      modifies this
      ensures ops == old(ops) + [Push(seg, index)]
    {
      Write(Push(seg, index));
    }

    method WritePop(seg: string, index: int)
      modifies this
      ensures ops == old(ops) + [Pop(seg, index)]
    {
      Write(Pop(seg, index));
    }

    method WriteArithmetic(cmd: ArithCmd)
      modifies this
      ensures ops == old(ops) + [Arith(cmd)]
    {
      Write(Arith(cmd));
    }

    method WriteLabel(l: string)
      modifies this
      ensures ops == old(ops) + [Label(l)]
    {
      Write(Label(l));
    }

    method WriteGoto(l: string)
      modifies this
      ensures ops == old(ops) + [Goto(l)]
    {
      Write(Goto(l));
    }

    method WriteIf(l: string)
      modifies this
      ensures ops == old(ops) + [IfGoto(l)]
    {
      Write(IfGoto(l));
    }

    method WriteCall(name: string, nArgs: int)
      modifies this
      ensures ops == old(ops) + [Call(name, nArgs)]
    {
      Write(Call(name, nArgs));
    }

    method WriteFunction(name: string, nLocals: int)
      modifies this
      ensures ops == old(ops) + [Function(name, nLocals)]
    {
      Write(Function(name, nLocals));
    }

    method WriteReturn()
      modifies this
      ensures ops == old(ops) + [Return]
    {
      Write(Return);
    }
  }
}
