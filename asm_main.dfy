/**
  The second assembler's driver (assembler/main.go) without its file
  plumbing: the `.asm` to `.hack` name derivation, the second pass that
  resolves symbols and encodes every instruction, and the `%016b` output
  lines.
*/
module AsmMain {
  import opened Common
  import opened Text
  import opened HackCommands
  import opened HackSymbols
  import HackCode
  import AsmCode

  // ---------------------------------------------------------------- file names

  /**
    filepath.Ext scanning back from position i: the text from the last '.'
    after the last '/', or "" when there is none.
  */
  function ExtBefore(path: string, i: nat): (r: string)
    requires i <= |path|
    ensures HasSuffix(path, r) && (r == [] || r[0] == '.')
    decreases i
  {
    if i == 0 || path[i - 1] == '/' then ""
    else if path[i - 1] == '.' then path[i - 1..]
    else ExtBefore(path, i - 1)
  }

  /** filepath.Ext with '/' as the separator. */
  function Ext(path: string): (r: string)
    ensures HasSuffix(path, r) && (r == [] || r[0] == '.')
  {
    ExtBefore(path, |path|)
  }

  /** The extension is `.asm` exactly when the name ends in `.asm`. */
  lemma {:induction false} AsmExtension(path: string)
    ensures Ext(path) == ".asm" <==> HasSuffix(path, ".asm")
  {
    if HasSuffix(path, ".asm") {
      var n := |path|;
      assert path[n - 4..] == ".asm";
      assert path[n - 1] == 'm' && path[n - 2] == 's' && path[n - 3] == 'a' && path[n - 4] == '.';
      assert ExtBefore(path, n) == ExtBefore(path, n - 1) == ExtBefore(path, n - 2) == ExtBefore(path, n - 3) == path[n - 4..];
    }
  }

  /**
    assertGivenFileIsAssembly and the output name: a name without the `.asm`
    extension is refused; otherwise the extension is replaced by `.hack`.
  */
  function HackFileName(path: string): (r: Option<string>)
    ensures r.Some? <==> HasSuffix(path, ".asm")
    ensures r.Some? ==> r.value == path[..|path| - 4] + ".hack"
  {
    AsmExtension(path);
    var ext := Ext(path);
    if ext != ".asm" then None else Some(path[..|path| - |ext|] + ".hack")
  }

  // ---------------------------------------------------------------- %016b

  function Pow2(n: nat): (p: nat)
    ensures p > 0
  {
    if n == 0 then 1 else 2 * Pow2(n - 1)
  }

  /** Evaluates the two powers the 16-bit lemmas below need. */
  lemma {:induction false} Pow2Sixteen()
    ensures Pow2(15) == 0x8000 && Pow2(16) == 0x10000
  {
    assert Pow2(1) == 2 && Pow2(2) == 4 && Pow2(3) == 8 && Pow2(4) == 16;
    assert Pow2(5) == 32 && Pow2(6) == 64 && Pow2(7) == 128 && Pow2(8) == 256;
    assert Pow2(9) == 512 && Pow2(10) == 1024 && Pow2(11) == 2048 && Pow2(12) == 4096;
    assert Pow2(13) == 8192 && Pow2(14) == 16384;
  }

  predicate BinaryDigits(s: string) {
    forall k :: 0 <= k < |s| ==> s[k] == '0' || s[k] == '1'
  }

  /** The len lowest binary digits of n, most significant first. */
  function Bits(n: nat, len: nat): (s: string)
    ensures |s| == len && BinaryDigits(s)
  {
    if len == 0 then []
    else Bits(n / 2, len - 1) + [if n % 2 == 1 then '1' else '0']
  }

  /** `%016b` of a uint16: sixteen binary digits, zero-padded. */
  function Binary16(w: HackCode.UInt16): (s: string)
    ensures |s| == 16 && BinaryDigits(s)
  {
    Bits(w, 16)
  }

  /** The number a string of binary digits denotes. */
  function BinaryValue(s: string): nat {
    if s == [] then 0
    else 2 * BinaryValue(s[..|s| - 1]) + (if s[|s| - 1] == '1' then 1 else 0)
  }

  /** The digits of a number below 2^len read back as that number. */
  lemma {:induction false} BitsValue(n: nat, len: nat)
    requires n < Pow2(len)
    ensures BinaryValue(Bits(n, len)) == n
  {
    if len > 0 {
      BitsValue(n / 2, len - 1);
      var s := Bits(n, len);
      assert s[..|s| - 1] == Bits(n / 2, len - 1);
    }
  }

  /** The leading digit of a number below 2^len is 1 exactly when the number is at least 2^(len-1). */
  lemma {:induction false} BitsTop(n: nat, len: nat)
    requires 0 < len && n < Pow2(len)
    ensures Bits(n, len)[0] == '1' <==> n >= Pow2(len - 1)
  {
    if len > 1 {
      BitsTop(n / 2, len - 1);
      assert Bits(n, len)[0] == Bits(n / 2, len - 1)[0];
    }
  }

  /** Each output line reads back as the word it was printed from. */
  lemma {:induction false} Binary16Value(w: HackCode.UInt16)
    ensures BinaryValue(Binary16(w)) == w
  {
    Pow2Sixteen();
    BitsValue(w, 16);
  }

  /** The first digit of a line is bit 15: set for C-instructions and for A-values of 32768 or more. */
  lemma {:induction false} Binary16Top(w: HackCode.UInt16)
    ensures Binary16(w)[0] == '1' <==> w >= 0x8000
  {
    Pow2Sixteen();
    BitsTop(w, 16);
  }

  /** The output lines, one per word. */
  function Lines(words: seq<HackCode.UInt16>): (ls: seq<string>)
    ensures |ls| == |words|
    ensures forall k :: 0 <= k < |ls| ==> ls[k] == Binary16(words[k])
  {
    if words == [] then []
    else Lines(words[..|words| - 1]) + [Binary16(words[|words| - 1])]
  }

  // ---------------------------------------------------------------- the second pass

  /** The words emitted so far, the symbol table and its allocator. */
  datatype PassState = PassState(words: seq<HackCode.UInt16>, table: map<string, Address>, next: Address)

  /** A numeric A-command whose value does not fit in 16 bits. */
  predicate Oversized(c: Command) {
    c.ACommand? && IsDecimal(c.symbol) && DecimalValue(c.symbol) > 0xFFFF
  }

  /**
    One command of the second pass. A numeric A-command is converted (an
    error beyond 16 bits); any other A-command takes its symbol's address,
    binding a new symbol to the next free RAM address; a C-command takes its
    instruction word; a label emits nothing.
  */
  function Resolve(st: PassState, c: Command): (r: Option<PassState>)
    ensures r.Some? ==> |r.value.words| == |st.words| + (if c.LCommand? then 0 else 1) && r.value.words[..|st.words|] == st.words
    ensures r.None? <==> Oversized(c)
  {
    match c
    case ACommand(s) =>
      if IsDecimal(s) then
        var v :- AsmCode.ConvertACommand(c);
        Some(st.(words := st.words + [v]))
      else if s in st.table then Some(st.(words := st.words + [st.table[s]]))
      else Some(PassState(st.words + [st.next], st.table[s := st.next], Inc(st.next)))
    case CCommand(_, _, _) => Some(st.(words := st.words + [AsmCode.ConvertCCommand(c)]))
    case LCommand(_) => Some(st)
  }

  /** The second pass over a list of commands: stops at the first conversion error. */
  function Pass(st: PassState, cmds: seq<Command>): Option<PassState> {
    if cmds == [] then Some(st)
    else
      var s :- Pass(st, cmds[..|cmds| - 1]);
      Resolve(s, cmds[|cmds| - 1])
  }

  /** The pass in two halves. */
  lemma {:induction false} PassAppend(st: PassState, a: seq<Command>, b: seq<Command>)
    ensures Pass(st, a + b) == (var s :- Pass(st, a); Pass(s, b))
    decreases |b|
  {
    if b == [] {
      assert a + b == a;
    } else {
      var b' := b[..|b| - 1];
      assert (a + b)[..|a + b| - 1] == a + b';
      assert (a + b)[|a + b| - 1] == b[|b| - 1];
      PassAppend(st, a, b');
    }
  }

  /** The pass over one more command of a list. */
  lemma {:induction false} PassPrefixStep(st: PassState, cmds: seq<Command>, i: nat)
    requires i < |cmds|
    ensures Pass(st, cmds[..i + 1]) == (var s :- Pass(st, cmds[..i]); Resolve(s, cmds[i]))
  {
    assert cmds[..i + 1][..i] == cmds[..i];
  }

  /** A pass that failed on a prefix fails on the whole list. */
  lemma {:induction false} PassStops(st: PassState, cmds: seq<Command>, i: nat)
    requires i <= |cmds| && Pass(st, cmds[..i]).None?
    ensures Pass(st, cmds).None?
  {
    PassAppend(st, cmds[..i], cmds[i..]);
    assert cmds[..i] + cmds[i..] == cmds;
  }

  /** The pass fails exactly when some numeric A-command is out of range. */
  lemma {:induction false} PassFails(st: PassState, cmds: seq<Command>)
    ensures Pass(st, cmds).None? <==> exists i :: 0 <= i < |cmds| && Oversized(cmds[i])
    decreases |cmds|
  {
    if cmds != [] {
      var init := cmds[..|cmds| - 1];
      PassFails(st, init);
      if exists i :: 0 <= i < |init| && Oversized(init[i]) {
        var i :| 0 <= i < |init| && Oversized(init[i]);
        assert cmds[i] == init[i];
      }
      if exists i :: 0 <= i < |cmds| && Oversized(cmds[i]) {
        var i :| 0 <= i < |cmds| && Oversized(cmds[i]);
        if i < |init| {
          assert init[i] == cmds[i];
        }
      }
    }
  }

  /** One word per instruction, appended to the words already emitted. */
  lemma {:induction false} PassWords(st: PassState, cmds: seq<Command>)
    requires Pass(st, cmds).Some?
    ensures var r := Pass(st, cmds).value;
      |r.words| == |st.words| + InstructionCount(cmds) && r.words[..|st.words|] == st.words
    decreases |cmds|
  {
    if cmds != [] {
      var init := cmds[..|cmds| - 1];
      PassWords(st, init);
      var s := Pass(st, init).value;
      var r := Pass(st, cmds).value;
      assert r.words[..|s.words|] == s.words;
      assert r.words[..|st.words|] == r.words[..|s.words|][..|st.words|];
    }
  }

  /** A symbol already bound keeps its address: the pass only adds new bindings. */
  lemma {:induction false} PassKeepsBindings(st: PassState, cmds: seq<Command>, s: string)
    requires Pass(st, cmds).Some? && s in st.table
    ensures s in Pass(st, cmds).value.table && Pass(st, cmds).value.table[s] == st.table[s]
    decreases |cmds|
  {
    if cmds != [] {
      PassKeepsBindings(st, cmds[..|cmds| - 1], s);
    }
  }

  /**
    The word emitted for the command at position i (the instructions before
    it are the words before it): a C-command's instruction word, a numeric
    A-command's value, and for a symbolic A-command the address its symbol
    has at the end of the pass.
  */
  lemma {:induction false} WordAt(st: PassState, cmds: seq<Command>, i: nat)
    requires Pass(st, cmds).Some? && i < |cmds| && !cmds[i].LCommand?
    ensures var r := Pass(st, cmds).value;
      var k := |st.words| + InstructionCount(cmds[..i]);
      var c := cmds[i];
      k < |r.words| &&
      (c.CCommand? ==> r.words[k] == AsmCode.ConvertCCommand(c)) &&
      (c.ACommand? && IsDecimal(c.symbol) ==> r.words[k] == DecimalValue(c.symbol)) &&
      (c.ACommand? && !IsDecimal(c.symbol) ==> c.symbol in r.table && r.words[k] == r.table[c.symbol])
  {
    var c := cmds[i];
    var before, rest := cmds[..i], cmds[i + 1..];
    assert cmds == before + ([c] + rest);
    PassAppend(st, before, [c] + rest);
    var s := Pass(st, before).value;
    PassWords(st, before);
    PassAppend(s, [c], rest);
    assert [c][..0] == [];
    var mid := Resolve(s, c).value;
    ResolveWord(s, c);
    PassWords(mid, rest);
    var r := Pass(st, cmds).value;
    assert r == Pass(mid, rest).value;
    var k := |s.words|;
    assert r.words[k] == mid.words[k] by {
      assert r.words[..|mid.words|] == mid.words;
    }
    if c.ACommand? && !IsDecimal(c.symbol) {
      PassKeepsBindings(mid, rest, c.symbol);
    }
  }

  /** The word one instruction appends, from the state before it. */
  lemma {:induction false} ResolveWord(s: PassState, c: Command)
    requires Resolve(s, c).Some? && !c.LCommand?
    ensures var r := Resolve(s, c).value;
      var k := |s.words|;
      k < |r.words| &&
      (c.CCommand? ==> r.words[k] == AsmCode.ConvertCCommand(c)) &&
      (c.ACommand? && IsDecimal(c.symbol) ==> r.words[k] == DecimalValue(c.symbol)) &&
      (c.ACommand? && !IsDecimal(c.symbol) ==> c.symbol in r.table && r.words[k] == r.table[c.symbol])
  {
  }

  /** Every occurrence of the same symbol is encoded as the same address. */
  lemma {:induction false} RepeatedSymbol(st: PassState, cmds: seq<Command>, i: nat, j: nat, s: string)
    requires Pass(st, cmds).Some? && i < |cmds| && j < |cmds|
    requires cmds[i] == ACommand(s) && cmds[j] == ACommand(s) && !IsDecimal(s)
    ensures var r := Pass(st, cmds).value;
      var ki, kj := |st.words| + InstructionCount(cmds[..i]), |st.words| + InstructionCount(cmds[..j]);
      ki < |r.words| && kj < |r.words| && r.words[ki] == r.words[kj]
  {
    WordAt(st, cmds, i);
    WordAt(st, cmds, j);
  }

  /**
    A symbolic A-command bound before the pass (a predefined symbol or a
    label) is encoded as that binding.
  */
  lemma {:induction false} BoundSymbol(st: PassState, cmds: seq<Command>, i: nat, s: string)
    requires Pass(st, cmds).Some? && i < |cmds| && cmds[i] == ACommand(s) && !IsDecimal(s) && s in st.table
    ensures var r := Pass(st, cmds).value;
      var k := |st.words| + InstructionCount(cmds[..i]);
      k < |r.words| && r.words[k] == st.table[s]
  {
    WordAt(st, cmds, i);
    PassKeepsBindings(st, cmds, s);
  }

  // ---------------------------------------------------------------- the program

  /** The pass as main.go runs it: no words yet, and the table LoadLabelAddress left. */
  function Start(cmds: seq<Command>): PassState {
    PassState([], LabelsAsWritten(Predefined, cmds), FirstVariableAddress)
  }

  /** The pass after the intended first pass, which binds a label to the next instruction. */
  function IntendedStart(cmds: seq<Command>): PassState {
    PassState([], Labels(Predefined, cmds), FirstVariableAddress)
  }

  /** The whole assembly from a starting state: the second pass, then the output lines, or failure. */
  function AssembleFrom(st: PassState, cmds: seq<Command>): (r: Option<seq<string>>)
    requires st.words == []
    ensures r.Some? <==> Pass(st, cmds).Some?
    ensures r.Some? ==> |r.value| == InstructionCount(cmds) && r.value == Lines(Pass(st, cmds).value.words)
  {
    var fin :- Pass(st, cmds);
    PassWords(st, cmds);
    Some(Lines(fin.words))
  }

  /** main.go's assembly: LoadLabelAddress, then the second pass. */
  function Assemble(cmds: seq<Command>): (r: Option<seq<string>>)
    ensures r.Some? ==> |r.value| == InstructionCount(cmds)
  {
    AssembleFrom(Start(cmds), cmds)
  }

  /** The assembly with the intended first pass. */
  function AssembleIntended(cmds: seq<Command>): (r: Option<seq<string>>)
    ensures r.Some? ==> |r.value| == InstructionCount(cmds)
  {
    AssembleFrom(IntendedStart(cmds), cmds)
  }

  /** Both first passes bind labels only, so the assemblies fail on the same programs. */
  lemma {:induction false} AssembleFailsAlike(cmds: seq<Command>)
    ensures Assemble(cmds).None? <==> (exists i :: 0 <= i < |cmds| && Oversized(cmds[i]))
    ensures AssembleIntended(cmds).None? <==> (exists i :: 0 <= i < |cmds| && Oversized(cmds[i]))
  {
    PassFails(Start(cmds), cmds);
    PassFails(IntendedStart(cmds), cmds);
  }

  /**
    A jump target as main.go encodes it: `@L` for a label L last defined at
    position i of the command list is encoded as i itself, labels before it
    counted.
  */
  lemma {:induction false} LabelReferenceAsWritten(cmds: seq<Command>, i: nat, j: nat, s: string)
    requires Pass(Start(cmds), cmds).Some? && i < |cmds| && j < |cmds|
    requires cmds[i] == LCommand(s) && (forall k :: i < k < |cmds| ==> cmds[k] != LCommand(s))
    requires cmds[j] == ACommand(s) && !IsDecimal(s)
    ensures var r := Pass(Start(cmds), cmds).value;
      var k := InstructionCount(cmds[..j]);
      k < |r.words| && r.words[k] == i % 0x10000
  {
    LabelsAsWrittenValue(Predefined, cmds, s, i);
    BoundSymbol(Start(cmds), cmds, j, s);
  }

  /**
    A jump target as intended: `@L` for a label L last defined at position
    i is encoded as the ROM address of the instruction after the label,
    which is the number of output lines before it.
  */
  lemma {:induction false} LabelReference(cmds: seq<Command>, i: nat, j: nat, s: string)
    requires Pass(IntendedStart(cmds), cmds).Some? && i < |cmds| && j < |cmds|
    requires cmds[i] == LCommand(s) && (forall k :: i < k < |cmds| ==> cmds[k] != LCommand(s))
    requires cmds[j] == ACommand(s) && !IsDecimal(s)
    ensures var r := Pass(IntendedStart(cmds), cmds).value;
      var k := InstructionCount(cmds[..j]);
      k < |r.words| && r.words[k] == InstructionCount(cmds[..i]) % 0x10000
  {
    LabelsValue(Predefined, cmds, s, i);
    BoundSymbol(IntendedStart(cmds), cmds, j, s);
  }

  /**
    The discrepancy end to end: for `(START) @1 (LOOP) 0;JMP @LOOP` main.go
    prints the line of 2 for `@LOOP` (Binary16Value reads it back), while
    the instruction after (LOOP) is at ROM address 1.
  */
  lemma {:induction false} JumpTargetAsWritten()
    ensures var cmds := [LCommand("START"), ACommand("1"), LCommand("LOOP"), CCommand("", "0", "JMP"), ACommand("LOOP")];
      Assemble(cmds).Some? && |Assemble(cmds).value| == 3 && Assemble(cmds).value[2] == Binary16(2) &&
      AssembleIntended(cmds).Some? && |AssembleIntended(cmds).value| == 3 && AssembleIntended(cmds).value[2] == Binary16(1)
  {
    var cmds := [LCommand("START"), ACommand("1"), LCommand("LOOP"), CCommand("", "0", "JMP"), ACommand("LOOP")];
    LoopProgram(cmds);
    LoopTargetAsWritten(cmds);
    LoopTargetIntended(cmds);
  }

  /** The facts about the example program the lemma above needs. */
  lemma {:induction false} LoopProgram(cmds: seq<Command>)
    requires cmds == [LCommand("START"), ACommand("1"), LCommand("LOOP"), CCommand("", "0", "JMP"), ACommand("LOOP")]
    ensures |cmds| == 5 && cmds[2] == LCommand("LOOP") && cmds[3] != LCommand("LOOP") && cmds[4] == ACommand("LOOP")
    ensures !IsDecimal("LOOP") && (forall k :: 0 <= k < |cmds| ==> !Oversized(cmds[k]))
    ensures InstructionCount(cmds) == 3 && InstructionCount(cmds[..2]) == 1 && InstructionCount(cmds[..4]) == 2
  {
    assert !IsDigit("LOOP"[0]);
    assert DecimalValue("1") == 1 by { assert "1"[..0] == []; }
    assert InstructionCount(cmds[..1]) == 0 by { assert cmds[..1][..0] == []; }
    assert InstructionCount(cmds[..2]) == 1 by { assert cmds[..2][..1] == cmds[..1]; }
    assert InstructionCount(cmds[..3]) == 1 by { assert cmds[..3][..2] == cmds[..2]; }
    assert InstructionCount(cmds[..4]) == 2 by { assert cmds[..4][..3] == cmds[..3]; }
    assert InstructionCount(cmds) == 3 by { assert cmds[..4] == cmds[..|cmds| - 1]; }
  }

  /** The `@LOOP` line as main.go writes it, from the shape of the example program. */
  lemma {:induction false} LoopTargetAsWritten(cmds: seq<Command>)
    requires |cmds| == 5 && cmds[2] == LCommand("LOOP") && cmds[3] != LCommand("LOOP") && cmds[4] == ACommand("LOOP")
    requires !IsDecimal("LOOP") && (forall k :: 0 <= k < |cmds| ==> !Oversized(cmds[k]))
    requires InstructionCount(cmds) == 3 && InstructionCount(cmds[..4]) == 2
    ensures Assemble(cmds).Some? && |Assemble(cmds).value| == 3 && Assemble(cmds).value[2] == Binary16(2)
  {
    PassFails(Start(cmds), cmds);
    LabelReferenceAsWritten(cmds, 2, 4, "LOOP");
  }

  /** The `@LOOP` line with the intended first pass, from the shape of the example program. */
  lemma {:induction false} LoopTargetIntended(cmds: seq<Command>)
    requires |cmds| == 5 && cmds[2] == LCommand("LOOP") && cmds[3] != LCommand("LOOP") && cmds[4] == ACommand("LOOP")
    requires !IsDecimal("LOOP") && (forall k :: 0 <= k < |cmds| ==> !Oversized(cmds[k]))
    requires InstructionCount(cmds) == 3 && InstructionCount(cmds[..2]) == 1 && InstructionCount(cmds[..4]) == 2
    ensures AssembleIntended(cmds).Some? && |AssembleIntended(cmds).value| == 3 && AssembleIntended(cmds).value[2] == Binary16(1)
  {
    PassFails(IntendedStart(cmds), cmds);
    LabelReference(cmds, 2, 4, "LOOP");
  }

  /**
    One iteration of main's second-pass loop: resolve or convert the command,
    allocating a new symbol through AddAutoEntry. `emitted` says whether a
    line is written; `ok` is false on a conversion error.
  */
  method ResolveCommand(symbolTable: SymbolTable, c: Command, ghost st: PassState) returns (ok: bool, emitted: bool, bin: HackCode.UInt16)
    requires st.table == symbolTable.table && st.next == symbolTable.nextRAMAddress
    modifies symbolTable
    ensures var r := Resolve(st, c);
      (ok <==> r.Some?) &&
      (ok ==> r.value == PassState(st.words + (if emitted then [bin] else []), symbolTable.table, symbolTable.nextRAMAddress))
  {
    ok, emitted, bin := true, true, 0;
    if c.LCommand? {
      emitted := false;
    } else if c.CCommand? {
      bin := AsmCode.ConvertCCommand(c);
    } else if IsDecimal(c.symbol) {
      var v := AsmCode.ConvertACommand(c);
      if v.None? {
        ok := false;
      } else {
        bin := v.value;
      }
    } else {
      var addr := symbolTable.GetAddress(c.symbol);
      if addr.Some? {
        bin := addr.value;
      } else {
        bin := symbolTable.AddAutoEntry(c.symbol);
      }
    }
  }

  /** The second pass as main runs it, on the symbol table the first pass filled: one line per instruction. */
  method SecondPass(symbolTable: SymbolTable, cmds: seq<Command>) returns (ok: bool, out: seq<string>)
    modifies symbolTable
    ensures var r := Pass(PassState([], old(symbolTable.table), old(symbolTable.nextRAMAddress)), cmds);
      (ok <==> r.Some?) &&
      (ok ==> out == Lines(r.value.words) && symbolTable.table == r.value.table && symbolTable.nextRAMAddress == r.value.next)
  {
    ghost var st := PassState([], symbolTable.table, symbolTable.nextRAMAddress);
    ghost var words: seq<HackCode.UInt16> := [];
    out := [];
    var i := 0;
    while i < |cmds|
      invariant 0 <= i <= |cmds|
      invariant Pass(st, cmds[..i]) == Some(PassState(words, symbolTable.table, symbolTable.nextRAMAddress))
      invariant out == Lines(words)
    {
      PassPrefixStep(st, cmds, i);
      var emitted, bin;
      ok, emitted, bin := ResolveCommand(symbolTable, cmds[i], PassState(words, symbolTable.table, symbolTable.nextRAMAddress));
      if !ok {
        PassStops(st, cmds, i + 1);
        return;
      }
      if emitted {
        assert (words + [bin])[..|words|] == words;
        words := words + [bin];
        out := out + [Binary16(bin)];
      }
      i := i + 1;
    }
    assert cmds[..i] == cmds;
    ok := true;
  }

  /** main without its files: a fresh symbol table, LoadLabelAddress, then the second pass. */
  method Run(cmds: seq<Command>) returns (ok: bool, out: seq<string>)
    ensures ok <==> Assemble(cmds).Some?
    ensures ok ==> out == Assemble(cmds).value
  {
    var symbolTable := new SymbolTable();
    symbolTable.LoadLabelAddress(cmds);
    ok, out := SecondPass(symbolTable, cmds);
  }

  /** main with the intended first pass in place of LoadLabelAddress. */
  method RunIntended(cmds: seq<Command>) returns (ok: bool, out: seq<string>)
    ensures ok <==> AssembleIntended(cmds).Some?
    ensures ok ==> out == AssembleIntended(cmds).value
  {
    var symbolTable := new SymbolTable();
    symbolTable.LoadLabels(cmds);
    ok, out := SecondPass(symbolTable, cmds);
  }
}
