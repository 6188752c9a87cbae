/**
  The VM translator's code writer (vmtranslator/codewriter.go): every VM
  command becomes a block of Hack assembly lines, following the stack-frame
  protocol of chapter 8 of The Elements of Computing Systems. The writer keeps
  a per-prefix label counter, the current file (for statics and labels) and
  the current function (for labels).

  Each block is first defined as a pure function of its inputs; the methods of
  CodeWriter append that block to the output, and the lemmas below state what
  the blocks do.
*/
module VmCodeWriter {
  import opened Common
  import opened Text
  import VmParser
  import HackCode

  // ---------------------------------------------------------------------
  // The label sequence generator.

  /** The generator's current count for a key: a key never drawn counts 0 (Go's map default). */
  function Count(m: map<string, nat>, key: string): nat {
    if key in m then m[key] else 0
  }

  /** genSequencialLabel's text for the n-th label of a prefix: `prefix_n`. */
  function SeqLabel(prefix: string, n: nat): string {
    prefix + "_" + NatToString(n)
  }

  /** Different (prefix, number) pairs give different labels, even when the prefix holds `_`. */
  lemma {:induction false} SeqLabelInjective(p: string, n: nat, q: string, m: nat)
    requires SeqLabel(p, n) == SeqLabel(q, m)
    ensures p == q && n == m
  {
    NatToStringHasNo(n, '_');
    NatToStringHasNo(m, '_');
    SplitAtLastSeparator(p, NatToString(n), q, NatToString(m), '_');
    NatToStringInjective(n, m);
  }

  lemma {:induction false} SeqLabelDistinct(p: string, n: nat, q: string, m: nat)
    requires (p, n) != (q, m)
    ensures SeqLabel(p, n) != SeqLabel(q, m)
  {
    if SeqLabel(p, n) == SeqLabel(q, m) {
      SeqLabelInjective(p, n, q, m);
    }
  }

  /** Every draw so far is below the generator's current count for its prefix. */
  predicate Below(draws: seq<(string, nat)>, m: map<string, nat>) {
    forall i :: 0 <= i < |draws| ==> draws[i].1 < Count(m, draws[i].0)
  }

  predicate Distinct<T(==)>(xs: seq<T>) {
    forall i, j :: 0 <= i < j < |xs| ==> xs[i] != xs[j]
  }

  /**
    gen: drawing a key returns its count and increments that key only; the
    new draw differs from every earlier one, so the draws stay distinct.
  */
  lemma {:induction false} DrawKeepsDistinct(draws: seq<(string, nat)>, m: map<string, nat>, key: string)
    requires Below(draws, m) && Distinct(draws)
    ensures var m' := m[key := Count(m, key) + 1];
      Below(draws + [(key, Count(m, key))], m') && Distinct(draws + [(key, Count(m, key))]) &&
      forall k :: k != key ==> Count(m', k) == Count(m, k)
  {
    var d := draws + [(key, Count(m, key))];
    var m' := m[key := Count(m, key) + 1];
    forall i | 0 <= i < |d|
      ensures d[i].1 < Count(m', d[i].0)
    {
      if i < |draws| {
        assert d[i] == draws[i];
      }
    }
    forall i, j | 0 <= i < j < |d|
      ensures d[i] != d[j]
    {
      if j == |draws| {
        assert d[i] == draws[i] && d[i].1 < Count(m, d[i].0);
      } else {
        assert d[i] == draws[i] && d[j] == draws[j];
      }
    }
  }

  /** Distinct draws give pairwise distinct label texts: no label is defined twice in one output. */
  lemma {:induction false} DrawnLabelsDistinct(draws: seq<(string, nat)>)
    requires Distinct(draws)
    ensures forall i, j :: 0 <= i < j < |draws| ==> SeqLabel(draws[i].0, draws[i].1) != SeqLabel(draws[j].0, draws[j].1)
  {
    forall i, j | 0 <= i < j < |draws|
      ensures SeqLabel(draws[i].0, draws[i].1) != SeqLabel(draws[j].0, draws[j].1)
    {
      SeqLabelDistinct(draws[i].0, draws[i].1, draws[j].0, draws[j].1);
    }
  }

  // ---------------------------------------------------------------------
  // Push and pop.

  /** writePushD: store D at the stack top and increment SP. */
  const PushD: seq<string> := ["@SP", "A=M", "M=D", "@SP", "M=M+1"]

  const SegmentNames: seq<string> := ["argument", "local", "static", "constant", "this", "that", "pointer", "temp"]

  /** The segments addressed through a base register, with that register. */
  function BaseRegister(segment: string): Option<string> {
    if segment == "argument" then Some("ARG")
    else if segment == "local" then Some("LCL")
    else if segment == "this" then Some("THIS")
    else if segment == "that" then Some("THAT")
    else None
  }

  /** `pointer 0` is THIS and `pointer 1` is THAT; any other index is a segmentation fault. */
  function PointerRegister(index: int): (r: Option<string>)
    ensures r.Some? <==> index == 0 || index == 1
  {
    if index == 0 then Some("THIS") else if index == 1 then Some("THAT") else None
  }

  /** `temp i` is R(i+5) for 0 <= i <= 7; any other index is a segmentation fault. */
  function TempRegister(index: int): (r: Option<string>)
    ensures r.Some? <==> 0 <= index <= 7
    ensures r.Some? ==> r.value == "R" + NatToString(index + 5)
  {
    if index < 0 || 7 < index then None else Some("R" + IntToString(index + 5))
  }

  /** The symbol of `static i` in a file: `file.static_i`. */
  function StaticSymbol(file: string, index: int): string {
    file + ".static_" + IntToString(index)
  }

  /** The accesses the writer accepts: a known segment, and for pointer and temp an index in range. */
  predicate ValidAccess(segment: string, index: int) {
    segment in SegmentNames &&
    (segment == "pointer" ==> index == 0 || index == 1) &&
    (segment == "temp" ==> 0 <= index <= 7)
  }

  /** writePush's switch: the lines that load the value to push into D. */
  function PushLoad(file: string, segment: string, index: int): (r: Option<seq<string>>)
    ensures r.Some? <==> ValidAccess(segment, index)
  {
    if BaseRegister(segment).Some? then
      Some(["@" + BaseRegister(segment).value, "D=M", "@" + IntToString(index), "A=D+A", "D=M"])
    else if segment == "static" then Some(["@" + StaticSymbol(file, index), "D=M"])
    else if segment == "constant" then Some(["@" + IntToString(index), "D=A"])
    else if segment == "pointer" then
      var reg :- PointerRegister(index);
      Some(["@" + reg, "D=M"])
    else if segment == "temp" then
      var reg :- TempRegister(index);
      Some(["@" + reg, "D=M"])
    else None
  }

  function PushComment(segment: string, index: int): string {
    "// push " + segment + " " + IntToString(index)
  }

  /**
    writePush: the comment, the load into D, the push of D and a blank line;
    None where codewriter.go dies (unknown segment, pointer or temp out of range).
    Every accepted push increments SP exactly once.
  */
  function PushLines(file: string, segment: string, index: int): (r: Option<seq<string>>)
    ensures r.Some? <==> ValidAccess(segment, index)
    ensures r.Some? ==> |r.value| >= 7 && r.value[0] == PushComment(segment, index) && r.value[|r.value| - 6..] == PushD + [""]
  {
    var load :- PushLoad(file, segment, index);
    Some([PushComment(segment, index)] + load + PushD + [""])
  }

  /** The start of writePop: SP is decremented and the popped value is kept in D and R13. */
  const PopToR13: seq<string> := ["@SP", "AM=M-1", "D=M", "@R13", "M=D"]

  /** The end of writePop for addressed segments: R14 = D, then *R14 = R13. */
  const StoreViaR14: seq<string> := ["@R14", "M=D", "@R13", "D=M", "@R14", "A=M", "M=D"]

  /** writePop's switch: the lines that store the popped value (nothing for constant). */
  function PopStore(file: string, segment: string, index: int): (r: Option<seq<string>>)
    ensures r.Some? <==> ValidAccess(segment, index)
  {
    if BaseRegister(segment).Some? then
      Some(["@" + BaseRegister(segment).value, "D=M", "@" + IntToString(index), "D=D+A"] + StoreViaR14)
    else if segment == "static" then Some(["@" + StaticSymbol(file, index), "D=A"] + StoreViaR14)
    else if segment == "constant" then Some([])
    else if segment == "pointer" then
      var reg :- PointerRegister(index);
      Some(["@" + reg, "M=D"])
    else if segment == "temp" then
      var reg :- TempRegister(index);
      Some(["@" + reg, "M=D"])
    else None
  }

  function PopComment(segment: string, index: int): string {
    "// pop " + segment + " " + IntToString(index)
  }

  /**
    writePop: the comment, the pop into D and R13, the store and a blank line;
    None where codewriter.go dies. Pop accepts exactly the accesses push accepts.
  */
  function PopLines(file: string, segment: string, index: int): (r: Option<seq<string>>)
    ensures r.Some? <==> ValidAccess(segment, index)
    ensures r.Some? <==> PushLines(file, segment, index).Some?
    ensures r.Some? ==> |r.value| >= 7 && r.value[..6] == [PopComment(segment, index)] + PopToR13 && r.value[|r.value| - 1] == ""
  {
    var store :- PopStore(file, segment, index);
    Some([PopComment(segment, index)] + PopToR13 + store + [""])
  }

  /** `push constant i`: `@i`, `D=A`, then the push of D. */
  lemma {:induction false} PushConstantLayout(file: string, index: int)
    ensures PushLines(file, "constant", index) ==
      Some([PushComment("constant", index)] + ["@" + IntToString(index), "D=A"] + PushD + [""])
  {
    assert BaseRegister("constant") == None;
  }

  /** `pop constant i` discards the value: it only decrements SP and copies the value to R13. */
  lemma {:induction false} PopConstantDiscards(file: string, index: int)
    ensures PopLines(file, "constant", index) == Some([PopComment("constant", index)] + PopToR13 + [""])
  {
    assert [PopComment("constant", index)] + PopToR13 + [] + [""] == [PopComment("constant", index)] + PopToR13 + [""];
  }

  /** temp i addresses R(i+5) in both directions, pointer 0/1 address THIS/THAT, and both store directly. */
  lemma {:induction false} RegisterSegments(file: string, index: int)
    ensures 0 <= index <= 7 ==>
      PushLines(file, "temp", index).value[1] == "@R" + NatToString(index + 5) &&
      PopLines(file, "temp", index).value[6..8] == ["@R" + NatToString(index + 5), "M=D"]
    ensures index == 0 || index == 1 ==>
      var reg := if index == 0 then "THIS" else "THAT";
      PushLines(file, "pointer", index).value[1] == "@" + reg &&
      PopLines(file, "pointer", index).value[6..8] == ["@" + reg, "M=D"]
  {
    if 0 <= index <= 7 {
      var reg := "R" + NatToString(index + 5);
      assert "@" + reg == "@R" + NatToString(index + 5);
      assert PopLines(file, "temp", index).value == [PopComment("temp", index)] + PopToR13 + ["@" + reg, "M=D"] + [""];
    }
    if index == 0 || index == 1 {
      var reg := if index == 0 then "THIS" else "THAT";
      assert PopLines(file, "pointer", index).value == [PopComment("pointer", index)] + PopToR13 + ["@" + reg, "M=D"] + [""];
    }
  }

  /** Statics are per file and per index: two `static` accesses share a symbol only when both agree. */
  lemma {:induction false} StaticSymbolInjective(f: string, g: string, i: int, j: int)
    requires StaticSymbol(f, i) == StaticSymbol(g, j)
    ensures f == g && i == j
  {
    var s, t := IntToString(i), IntToString(j);
    NatToStringHasNo(if i < 0 then -i else i, '_');
    NatToStringHasNo(if j < 0 then -j else j, '_');
    assert '_' !in s && '_' !in t;
    assert ".static_" == ".static" + "_";
    assert StaticSymbol(f, i) == (f + ".static") + "_" + s;
    assert StaticSymbol(g, j) == (g + ".static") + "_" + t;
    SplitAtLastSeparator(f + ".static", s, g + ".static", t, '_');
    assert f == (f + ".static")[..|f|] && g == (g + ".static")[..|g|];
    IntToStringInjective(i, j);
  }

  /** Go's %d is injective on int. */
  lemma {:induction false} IntToStringInjective(i: int, j: int)
    requires IntToString(i) == IntToString(j)
    ensures i == j
  {
    var s, t := IntToString(i), IntToString(j);
    assert (s[0] == '-') == (i < 0) && (t[0] == '-') == (j < 0);
    if i < 0 {
      assert s[1..] == NatToString(-i) && t[1..] == NatToString(-j);
      NatToStringInjective(-i, -j);
    } else {
      NatToStringInjective(i, j);
    }
  }

  // ---------------------------------------------------------------------
  // Arithmetic.

  /** Pop y into D and point A at x. */
  const PopYPointX: seq<string> := ["@SP", "AM=M-1", "D=M", "A=A-1"]

  /** Point A at the stack top. */
  const PointTop: seq<string> := ["@SP", "A=M-1"]

  predicate IsComparison(command: string) {
    command == "eq" || command == "gt" || command == "lt"
  }

  /** The jump that skips the "true" store: it is taken exactly when the comparison fails. */
  function SkipJump(command: string): string
    requires IsComparison(command)
  {
    if command == "eq" then "JNE" else if command == "gt" then "JLE" else "JGE"
  }

  /** What `eq`, `gt` and `lt` mean on the two topmost values. */
  predicate Holds(command: string, x: int, y: int)
    requires IsComparison(command)
  {
    if command == "eq" then x == y else if command == "gt" then x > y else x < y
  }

  /** WriteArithmetic's switch; `label` is used only by the comparisons; an unknown command writes nothing. */
  function ArithmeticBody(command: string, labelName: string): seq<string> {
    if command == "add" then PopYPointX + ["M=D+M"]
    else if command == "sub" then PopYPointX + ["M=M-D"]
    else if command == "neg" then PointTop + ["M=-M"]
    else if IsComparison(command) then
      PopYPointX + ["D=M-D"] + PointTop + ["M=0", "@" + labelName, "D;" + SkipJump(command)] +
      PointTop + ["M=-1", "(" + labelName + ")"]
    else if command == "and" then PopYPointX + ["M=D&M"]
    else if command == "or" then PopYPointX + ["M=D|M"]
    else if command == "not" then PointTop + ["M=!M"]
    else []
  }

  /** WriteArithmetic: comment, body, blank line. */
  function ArithmeticLines(command: string, labelName: string): seq<string> {
    ["// " + command] + ArithmeticBody(command, labelName) + [""]
  }

  /**
    The comparisons compute D = x - y, store false (0) in x's slot, skip the
    true store (-1) by the jump of SkipJump, and define the drawn label right
    after it. The jump is taken exactly when the comparison does not hold, so
    x's slot ends as -1 iff it holds (over unbounded integers).
  */
  lemma {:induction false} ComparisonLayout(command: string, labelName: string, x: int, y: int)
    requires IsComparison(command)
    ensures var ls := ArithmeticLines(command, labelName);
      |ls| == 16 && ls[5] == "D=M-D" && ls[8] == "M=0" && ls[9] == "@" + labelName &&
      ls[10] == "D;" + SkipJump(command) && ls[13] == "M=-1" && ls[14] == "(" + labelName + ")"
    ensures HackCode.JumpTaken(SkipJump(command), x - y) <==> !Holds(command, x, y)
  {
  }

  /** An unknown arithmetic command is not an error: only its comment and a blank line are written. */
  lemma {:induction false} UnknownArithmetic(command: string, labelName: string)
    requires command !in VmParser.ArithmeticWords
    ensures ArithmeticLines(command, labelName) == ["// " + command, ""]
  {
  }

  // ---------------------------------------------------------------------
  // Program flow.

  /** qualifyLabel: `file.function$label`. */
  function Qualify(file: string, funcName: string, labelName: string): string {
    file + "." + funcName + "$" + labelName
  }

  /** Within one function of one file, different VM labels get different assembly labels. */
  lemma {:induction false} QualifyInjective(file: string, funcName: string, a: string, b: string)
    requires Qualify(file, funcName, a) == Qualify(file, funcName, b)
    ensures a == b
  {
    var p := file + "." + funcName + "$";
    assert p + a == Qualify(file, funcName, a) && p + b == Qualify(file, funcName, b);
    assert a == (p + a)[|p|..];
  }

  function LabelLines(file: string, funcName: string, labelName: string): seq<string> {
    ["// label " + labelName, "(" + Qualify(file, funcName, labelName) + ")", ""]
  }

  function GotoLines(file: string, funcName: string, labelName: string): seq<string> {
    ["// goto " + labelName, "@" + Qualify(file, funcName, labelName), "0;JMP", ""]
  }

  /** WriteIf: pop the condition into D and jump when it is nonzero. */
  function IfLines(file: string, funcName: string, labelName: string): seq<string> {
    ["// if-goto " + labelName, "@SP", "AM=M-1", "D=M", "@" + Qualify(file, funcName, labelName), "D;JNE", ""]
  }

  /** goto and if-goto in the same file and function jump to the symbol that `label` defines. */
  lemma {:induction false} JumpsReachLabel(file: string, funcName: string, labelName: string)
    ensures var q := Qualify(file, funcName, labelName);
      LabelLines(file, funcName, labelName)[1] == "(" + q + ")" &&
      GotoLines(file, funcName, labelName)[1..3] == ["@" + q, "0;JMP"] &&
      IfLines(file, funcName, labelName)[4..6] == ["@" + q, "D;JNE"]
  {
  }

  // ---------------------------------------------------------------------
  // Function call and return.

  /** The saved frame, in push order. */
  const FrameRegisters: seq<string> := ["LCL", "ARG", "THIS", "THAT"]

  /** The restore order of WriteReturn: THAT at LCL-1 up to LCL at LCL-4. */
  const RestoreOrder: seq<string> := ["THAT", "THIS", "ARG", "LCL"]

  /** Push the value of a register. */
  function SaveRegister(reg: string): seq<string> {
    ["@" + reg, "D=M"] + PushD
  }

  /** WriteCall's loop: push each register of the frame, in order. */
  function SaveFrame(regs: seq<string>): seq<string> {
    if regs == [] then [] else SaveFrame(regs[..|regs| - 1]) + SaveRegister(regs[|regs| - 1])
  }

  lemma {:induction false} SaveFrameSnoc(regs: seq<string>, reg: string)
    ensures SaveFrame(regs + [reg]) == SaveFrame(regs) + SaveRegister(reg)
  {
    var s := regs + [reg];
    assert s[..|s| - 1] == regs && s[|s| - 1] == reg;
  }

  function CallComment(funcName: string, nArgs: int): string {
    "// call " + funcName + " " + IntToString(nArgs)
  }

  /** Push the return address, the value of the call's return label. */
  function PushReturnAddress(ret: string): seq<string> {
    ["@" + ret, "D=A"] + PushD
  }

  /** ARG = SP - (nArgs + 5). */
  function SetArg(nArgs: int): seq<string> {
    ["@" + IntToString(nArgs + 5), "D=A", "@SP", "D=M-D", "@ARG", "M=D"]
  }

  /** LCL = SP. */
  const SetLcl: seq<string> := ["@SP", "D=M", "@LCL", "M=D"]

  /** Jump to a symbol unconditionally. */
  function JumpTo(symbol: string): seq<string> {
    ["@" + symbol, "0;JMP"]
  }

  /** The return label, defined right after the jump to the callee. */
  function ReturnPoint(ret: string, funcName: string, caller: string): seq<string> {
    ["(" + ret + ") // back from " + funcName + " to " + caller, ""]
  }

  /**
    WriteCall with its drawn return label `ret`, called from `caller`: push
    the return address and the frame, reposition ARG and LCL, jump, and define
    the return label.
  */
  function CallLines(funcName: string, nArgs: int, ret: string, caller: string): seq<string> {
    [CallComment(funcName, nArgs)] + PushReturnAddress(ret) + SaveFrame(FrameRegisters) +
    SetArg(nArgs) + SetLcl + JumpTo(funcName) + ReturnPoint(ret, funcName, caller)
  }

  /** WriteCall's loop pushes LCL, ARG, THIS and THAT, in that order. */
  lemma {:induction false} SaveLayout()
    ensures SaveFrame(FrameRegisters) ==
      SaveRegister("LCL") + SaveRegister("ARG") + SaveRegister("THIS") + SaveRegister("THAT")
  {
    SaveFrameSnoc([], "LCL");
    SaveFrameSnoc(["LCL"], "ARG");
    SaveFrameSnoc(["LCL", "ARG"], "THIS");
    SaveFrameSnoc(["LCL", "ARG", "THIS"], "THAT");
    assert [] + ["LCL"] == ["LCL"] && ["LCL"] + ["ARG"] == ["LCL", "ARG"];
    assert ["LCL", "ARG"] + ["THIS"] == ["LCL", "ARG", "THIS"] && ["LCL", "ARG", "THIS"] + ["THAT"] == FrameRegisters;
  }

  /**
    WriteCall makes exactly five pushes, in this order: the return address,
    LCL, ARG, THIS and THAT; then ARG = SP - (nArgs + 5), LCL = SP, the jump
    to the callee, and the definition of the return label.
  */
  lemma {:induction false} CallLayout(funcName: string, nArgs: int, ret: string, caller: string)
    ensures CallLines(funcName, nArgs, ret, caller) ==
      [CallComment(funcName, nArgs)] + PushReturnAddress(ret) +
      SaveRegister("LCL") + SaveRegister("ARG") + SaveRegister("THIS") + SaveRegister("THAT") +
      SetArg(nArgs) + SetLcl + JumpTo(funcName) + ReturnPoint(ret, funcName, caller)
  {
    SaveLayout();
    var save := SaveRegister("LCL") + SaveRegister("ARG") + SaveRegister("THIS") + SaveRegister("THAT");
    var head := [CallComment(funcName, nArgs)] + PushReturnAddress(ret);
    Assoc4(head, SaveRegister("LCL"), SaveRegister("ARG"), SaveRegister("THIS"), SaveRegister("THAT"));
  }

  /** WriteFunction's loop: n pushes of D (which holds 0). */
  function RepeatPushD(n: nat): seq<string> {
    if n == 0 then [] else RepeatPushD(n - 1) + PushD
  }

  /** n pushes are n consecutive copies of the push of D. */
  lemma {:induction false} RepeatPushDLayout(n: nat)
    ensures |RepeatPushD(n)| == 5 * n
    ensures forall j :: 0 <= j < n ==> RepeatPushD(n)[5 * j..5 * j + 5] == PushD
  {
    if n > 0 {
      RepeatPushDLayout(n - 1);
      var r := RepeatPushD(n - 1);
      forall j | 0 <= j < n
        ensures RepeatPushD(n)[5 * j..5 * j + 5] == PushD
      {
        if j < n - 1 {
          assert RepeatPushD(n)[5 * j..5 * j + 5] == r[5 * j..5 * j + 5];
        }
      }
    }
  }

  /** The number of iterations of `for i := 0; i < n; i++`. */
  function Iterations(n: int): nat {
    if n < 0 then 0 else n
  }

  function FunctionHeader(funcName: string, nLocals: int): seq<string> {
    ["// function " + funcName + " " + IntToString(nLocals), "(" + funcName + ") // {", "D=0"]
  }

  /** WriteFunction: the function's entry label, D = 0, then nLocals pushes. */
  function FunctionLines(funcName: string, nLocals: int): seq<string> {
    FunctionHeader(funcName, nLocals) + RepeatPushD(Iterations(nLocals)) + [""]
  }

  /** WriteFunction defines the function's entry label, sets D = 0 and pushes it exactly nLocals times (none when nLocals <= 0). */
  lemma {:induction false} FunctionLayout(funcName: string, nLocals: int)
    ensures var ls, n := FunctionLines(funcName, nLocals), Iterations(nLocals);
      |ls| == 4 + 5 * n && ls[1] == "(" + funcName + ") // {" && ls[2] == "D=0" &&
      (forall j :: 0 <= j < n ==> ls[3 + 5 * j..8 + 5 * j] == PushD) && ls[3 + 5 * n] == ""
  {
    var n := Iterations(nLocals);
    RepeatPushDLayout(n);
    var r := RepeatPushD(n);
    var ls := FunctionLines(funcName, nLocals);
    assert ls == FunctionHeader(funcName, nLocals) + r + [""] && |FunctionHeader(funcName, nLocals)| == 3;
    forall j | 0 <= j < n
      ensures ls[3 + 5 * j..8 + 5 * j] == PushD
    {
      assert ls[3 + 5 * j..8 + 5 * j] == r[5 * j..5 * j + 5];
    }
  }

  /** Restore one register from the frame: reg = *(LCL - offset). */
  function RestoreRegister(offset: nat, reg: string): seq<string> {
    ["@" + NatToString(offset), "D=A", "@LCL", "A=M-D", "D=M", "@" + reg, "M=D"]
  }

  /** WriteReturn's loop: the i-th register (from 0) is restored from LCL - (i + 1). */
  function RestoreFrame(regs: seq<string>): seq<string> {
    if regs == [] then [] else RestoreFrame(regs[..|regs| - 1]) + RestoreRegister(|regs|, regs[|regs| - 1])
  }

  lemma {:induction false} RestoreFrameSnoc(regs: seq<string>, reg: string)
    ensures RestoreFrame(regs + [reg]) == RestoreFrame(regs) + RestoreRegister(|regs| + 1, reg)
  {
    var s := regs + [reg];
    assert s[..|s| - 1] == regs && s[|s| - 1] == reg && |s| == |regs| + 1;
  }

  /** Save the return address *(LCL - 5) in R15. */
  const SaveReturnAddress: seq<string> := ["@5", "D=A", "@LCL", "A=M-D", "D=M", "@R15", "M=D"]

  /** SP = ARG + 1. */
  const ResetSp: seq<string> := ["@ARG", "D=M", "@SP", "M=D+1"]

  /** Jump to the saved return address. */
  const JumpR15: seq<string> := ["@R15", "A=M", "0;JMP"]

  function ReturnComment(current: string): string {
    "// return (from " + current + ")"
  }

  /** The start of WriteReturn: its comment and the save of the return address. */
  function ReturnHead(current: string): seq<string> {
    [ReturnComment(current)] + SaveReturnAddress
  }

  /** The end of WriteReturn, after the pop into argument 0. */
  function ReturnTail(): seq<string> {
    ResetSp + RestoreFrame(RestoreOrder) + JumpR15 + ["// }", ""]
  }

  /** WriteReturn, from function `current` of `file`: the pop of the result sits between head and tail. */
  function ReturnLines(file: string, current: string): seq<string> {
    ReturnHead(current) + PopLines(file, "argument", 0).value + ReturnTail()
  }

  /** WriteReturn restores THAT, THIS, ARG and LCL from LCL-1 .. LCL-4, in that order. */
  lemma {:induction false} RestoreLayout()
    ensures RestoreFrame(RestoreOrder) ==
      RestoreRegister(1, "THAT") + RestoreRegister(2, "THIS") + RestoreRegister(3, "ARG") + RestoreRegister(4, "LCL")
  {
    RestoreFrameSnoc([], "THAT");
    RestoreFrameSnoc(["THAT"], "THIS");
    RestoreFrameSnoc(["THAT", "THIS"], "ARG");
    RestoreFrameSnoc(["THAT", "THIS", "ARG"], "LCL");
    assert [] + ["THAT"] == ["THAT"] && ["THAT"] + ["THIS"] == ["THAT", "THIS"];
    assert ["THAT", "THIS"] + ["ARG"] == ["THAT", "THIS", "ARG"] && ["THAT", "THIS", "ARG"] + ["LCL"] == RestoreOrder;
  }

  /**
    WriteReturn saves the return address *(LCL-5) in R15 before it pops the
    result into argument 0 (which overwrites that slot when there are no
    arguments), then resets SP to ARG+1, restores the caller's frame and
    jumps through R15.
  */
  lemma {:induction false} ReturnLayout(file: string, current: string)
    ensures ReturnLines(file, current)[1..8] == SaveReturnAddress
    ensures ReturnLines(file, current)[8..14] == [PopComment("argument", 0)] + PopToR13
    ensures ReturnLines(file, current)[26..] == ResetSp +
      RestoreRegister(1, "THAT") + RestoreRegister(2, "THIS") + RestoreRegister(3, "ARG") + RestoreRegister(4, "LCL") +
      JumpR15 + ["// }", ""]
  {
    RestoreLayout();
    var h, pop, t := ReturnHead(current), PopLines(file, "argument", 0).value, ReturnTail();
    assert |h| == 8 && |pop| == 18;
    var ls := ReturnLines(file, current);
    assert ls[1..8] == h[1..8];
    assert ls[8..14] == pop[..6];
    assert ls[26..] == t;
  }

  /** WriteInit: SP = 256, then the call of Sys.init (made from Sys.init itself). */
  function InitLines(ret: string): seq<string> {
    ["@256", "D=A", "@SP", "M=D"] + CallLines("Sys.init", 0, ret, "Sys.init")
  }

  /** WriteCall's loop over the frame registers, as the lines it writes. */
  method SaveFrameLines(regs: seq<string>) returns (lines: seq<string>)
    ensures lines == SaveFrame(regs)
  {
    lines := [];
    var i := 0;
    while i < |regs|
      invariant 0 <= i <= |regs| && lines == SaveFrame(regs[..i])
    {
      SaveFrameSnoc(regs[..i], regs[i]);
      assert regs[..i] + [regs[i]] == regs[..i + 1];
      lines := lines + (["@" + regs[i], "D=M"] + PushD);
      i := i + 1;
    }
    assert regs[..i] == regs;
  }

  /** WriteFunction's loop `for i := 0; i < nLocals; i++ { writePushD() }`, as the lines it writes. */
  method PushDTimes(nLocals: int) returns (lines: seq<string>)
    ensures lines == RepeatPushD(Iterations(nLocals))
  {
    lines := [];
    var i := 0;
    while i < nLocals
      invariant 0 <= i <= Iterations(nLocals) && lines == RepeatPushD(i)
    {
      lines := lines + PushD;
      i := i + 1;
    }
  }

  /** WriteReturn's loop over THAT, THIS, ARG and LCL with offsets 1.., as the lines it writes. */
  method RestoreFrameLines(regs: seq<string>) returns (lines: seq<string>)
    ensures lines == RestoreFrame(regs)
  {
    lines := [];
    var i := 0;
    while i < |regs|
      invariant 0 <= i <= |regs| && lines == RestoreFrame(regs[..i])
    {
      RestoreFrameSnoc(regs[..i], regs[i]);
      assert regs[..i] + [regs[i]] == regs[..i + 1];
      lines := lines + ["@" + NatToString(i + 1), "D=A", "@LCL", "A=M-D", "D=M", "@" + regs[i], "M=D"];
      i := i + 1;
    }
    assert regs[..i] == regs;
  }

  // ---------------------------------------------------------------------
  // The writer.

  class CodeWriter {
    var out: seq<string>
    var seqGen: map<string, nat>
    var currentFile: string
    var currentFunction: string
    /** Every label drawn so far, as (prefix, number). */
    ghost var draws: seq<(string, nat)>

    /** The drawn labels are below the generator's counts and pairwise distinct. */
    ghost predicate Valid()
      reads this
    {
      Below(draws, seqGen) && Distinct(draws)
    }

    /** NewCodeWriter: empty output and an empty generator. */
    constructor ()
      ensures Valid() && out == [] && seqGen == map[] && currentFile == "" && currentFunction == "" && draws == []
    {
      out, seqGen, currentFile, currentFunction, draws := [], map[], "", "", [];
    }

    method SetFilename(filename: string)
      modifies this
      ensures currentFile == filename
      ensures out == old(out) && seqGen == old(seqGen) && currentFunction == old(currentFunction) && draws == old(draws)
    {
      currentFile := filename;
    }

    /** write, for a run of lines: each is appended in order. */
    method Write(lines: seq<string>)
      modifies this
      ensures out == old(out) + lines
      ensures seqGen == old(seqGen) && currentFile == old(currentFile) && currentFunction == old(currentFunction) && draws == old(draws)
    {
      out := out + lines;
    }

    method WritePushD()
      modifies this
      ensures out == old(out) + PushD
      ensures seqGen == old(seqGen) && currentFile == old(currentFile) && currentFunction == old(currentFunction) && draws == old(draws)
    {
      Write(PushD);
    }

    /** sequenceGenerator.gen: the key's count, then that key alone is incremented. */
    method Gen(key: string) returns (result: nat)
      modifies this
      ensures result == old(Count(seqGen, key)) && seqGen == old(seqGen)[key := result + 1]
      ensures out == old(out) && currentFile == old(currentFile) && currentFunction == old(currentFunction) && draws == old(draws)
    {
      result := Count(seqGen, key);
      seqGen := seqGen[key := result + 1];
    }

    /** genSequencialLabel: a label never drawn before by this writer. */
    method GenSequentialLabel(prefix: string) returns (labelName: string)
      requires Valid()
      modifies this
      ensures Valid()
      ensures labelName == SeqLabel(prefix, old(Count(seqGen, prefix)))
      ensures seqGen == old(seqGen)[prefix := old(Count(seqGen, prefix)) + 1]
      ensures draws == old(draws) + [(prefix, old(Count(seqGen, prefix)))]
      ensures out == old(out) && currentFile == old(currentFile) && currentFunction == old(currentFunction)
    {
      DrawKeepsDistinct(draws, seqGen, prefix);
      var n := Gen(prefix);
      draws := draws + [(prefix, n)];
      labelName := prefix + "_" + NatToString(n);
    }

    method WriteArithmetic(command: string)
      requires Valid()
      modifies this
      ensures Valid() && currentFile == old(currentFile) && currentFunction == old(currentFunction)
      ensures IsComparison(command) ==>
        var n := old(Count(seqGen, "END_SET_TRUE"));
        out == old(out) + ArithmeticLines(command, SeqLabel("END_SET_TRUE", n)) &&
        seqGen == old(seqGen)["END_SET_TRUE" := n + 1] && draws == old(draws) + [("END_SET_TRUE", n)]
      ensures !IsComparison(command) ==>
        out == old(out) + ArithmeticLines(command, "") && seqGen == old(seqGen) && draws == old(draws)
    {
      Write(["// " + command]);
      var labelName := "";
      if IsComparison(command) {
        labelName := GenSequentialLabel("END_SET_TRUE");
      }
      Write(ArithmeticBody(command, labelName));
      Write([""]);
    }

    /** writePush; false where codewriter.go dies, after the comment line. */
    method WritePush(segment: string, index: int) returns (ok: bool)
      modifies this
      ensures ok <==> ValidAccess(segment, index)
      ensures ok ==> out == old(out) + PushLines(old(currentFile), segment, index).value
      ensures !ok ==> out == old(out) + [PushComment(segment, index)]
      ensures seqGen == old(seqGen) && currentFile == old(currentFile) && currentFunction == old(currentFunction) && draws == old(draws)
    {
      var lines := PushLines(currentFile, segment, index);
      if lines.None? {
        Write([PushComment(segment, index)]);
        return false;
      }
      Write(lines.value);
      ok := true;
    }

    /** writePop; false where codewriter.go dies, after the comment and the pop into R13. */
    method WritePop(segment: string, index: int) returns (ok: bool)
      modifies this
      ensures ok <==> ValidAccess(segment, index)
      ensures ok ==> out == old(out) + PopLines(old(currentFile), segment, index).value
      ensures !ok ==> out == old(out) + [PopComment(segment, index)] + PopToR13
      ensures seqGen == old(seqGen) && currentFile == old(currentFile) && currentFunction == old(currentFunction) && draws == old(draws)
    {
      var lines := PopLines(currentFile, segment, index);
      if lines.None? {
        Write([PopComment(segment, index)] + PopToR13);
        return false;
      }
      Write(lines.value);
      ok := true;
    }

    /** WritePushPop: push or pop by command type; any other type is an error and writes nothing. */
    method WritePushPop(typ: VmParser.CommandType, segment: string, index: int) returns (ok: bool)
      modifies this
      ensures typ == VmParser.CPush ==>
        (ok <==> ValidAccess(segment, index)) && (ok ==> out == old(out) + PushLines(old(currentFile), segment, index).value)
      ensures typ == VmParser.CPop ==>
        (ok <==> ValidAccess(segment, index)) && (ok ==> out == old(out) + PopLines(old(currentFile), segment, index).value)
      ensures typ != VmParser.CPush && typ != VmParser.CPop ==> !ok && out == old(out)
      ensures seqGen == old(seqGen) && currentFile == old(currentFile) && currentFunction == old(currentFunction) && draws == old(draws)
    {
      if typ == VmParser.CPush {
        ok := WritePush(segment, index);
      } else if typ == VmParser.CPop {
        ok := WritePop(segment, index);
      } else {
        ok := false;
      }
    }

    method WriteLabel(labelName: string)
      modifies this
      ensures out == old(out) + LabelLines(currentFile, currentFunction, labelName)
      ensures seqGen == old(seqGen) && currentFile == old(currentFile) && currentFunction == old(currentFunction) && draws == old(draws)
    {
      Write(["// label " + labelName, "(" + Qualify(currentFile, currentFunction, labelName) + ")", ""]);
    }

    method WriteGoto(labelName: string)
      modifies this
      ensures out == old(out) + GotoLines(currentFile, currentFunction, labelName)
      ensures seqGen == old(seqGen) && currentFile == old(currentFile) && currentFunction == old(currentFunction) && draws == old(draws)
    {
      Write(["// goto " + labelName, "@" + Qualify(currentFile, currentFunction, labelName), "0;JMP", ""]);
    }

    method WriteIf(labelName: string)
      modifies this
      ensures out == old(out) + IfLines(currentFile, currentFunction, labelName)
      ensures seqGen == old(seqGen) && currentFile == old(currentFile) && currentFunction == old(currentFunction) && draws == old(draws)
    {
      Write(["// if-goto " + labelName, "@SP", "AM=M-1", "D=M", "@" + Qualify(currentFile, currentFunction, labelName), "D;JNE", ""]);
    }

    /** WriteCall: draws a fresh RETURN_ADDR label and writes CallLines with it. */
    method WriteCall(funcName: string, nArgs: int)
      requires Valid()
      modifies this
      ensures Valid() && currentFile == old(currentFile) && currentFunction == old(currentFunction)
      ensures var n := old(Count(seqGen, "RETURN_ADDR"));
        out == old(out) + CallLines(funcName, nArgs, SeqLabel("RETURN_ADDR", n), currentFunction) &&
        seqGen == old(seqGen)["RETURN_ADDR" := n + 1] && draws == old(draws) + [("RETURN_ADDR", n)]
    {
      var ret := GenSequentialLabel("RETURN_ADDR");
      var save := SaveFrameLines(FrameRegisters);
      Write([CallComment(funcName, nArgs)] + PushReturnAddress(ret) + save +
        SetArg(nArgs) + SetLcl + JumpTo(funcName) + ReturnPoint(ret, funcName, currentFunction));
    }

    /** WriteFunction: becomes the current function, then FunctionLines. */
    method WriteFunction(funcName: string, nLocals: int)
      modifies this
      ensures currentFunction == funcName
      ensures out == old(out) + FunctionLines(funcName, nLocals)
      ensures seqGen == old(seqGen) && currentFile == old(currentFile) && draws == old(draws)
    {
      currentFunction := funcName;
      var pushes := PushDTimes(nLocals);
      Write(FunctionHeader(funcName, nLocals) + pushes + [""]);
    }

    /** WriteReturn: ReturnLines of the current function. */
    method WriteReturn()
      modifies this
      ensures out == old(out) + ReturnLines(currentFile, currentFunction)
      ensures seqGen == old(seqGen) && currentFile == old(currentFile) && currentFunction == old(currentFunction) && draws == old(draws)
    {
      Write(ReturnHead(currentFunction));
      var ok := WritePop("argument", 0);
      var restore := RestoreFrameLines(RestoreOrder);
      Write(ResetSp + restore + JumpR15 + ["// }", ""]);
      Assoc3(old(out), ReturnHead(currentFunction), PopLines(currentFile, "argument", 0).value, ReturnTail());
    }

    /** WriteInit: SP = 256, Sys.init becomes the current function, and Sys.init is called. */
    method WriteInit()
      requires Valid()
      modifies this
      ensures Valid() && currentFile == old(currentFile) && currentFunction == "Sys.init"
      ensures var n := old(Count(seqGen, "RETURN_ADDR"));
        out == old(out) + InitLines(SeqLabel("RETURN_ADDR", n)) &&
        seqGen == old(seqGen)["RETURN_ADDR" := n + 1] && draws == old(draws) + [("RETURN_ADDR", n)]
    {
      Write(["@256", "D=A", "@SP", "M=D"]);
      currentFunction := "Sys.init";
      WriteCall("Sys.init", 0);
    }
  }
}
