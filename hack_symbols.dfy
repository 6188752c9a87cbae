/**
  The Hack assembler's symbol table (projects/06/assembler/symboltable.go):
  the predefined symbols, RAM allocation for variables from address 16, and
  the first pass that binds each label to a ROM address.
*/
module HackSymbols {
  import opened Common
  import opened HackCommands
  import HackCode

  /** Go's `type Address = uint16`. */
  type Address = HackCode.UInt16

  /** The symbols every program may use: the virtual registers, R0..R15, and the memory-mapped I/O. */
  const Predefined: map<string, Address> := map[
    "SP" := 0x0000,
    "LCL" := 0x0001,
    "ARG" := 0x0002,
    "THIS" := 0x0003,
    "THAT" := 0x0004,
    "R0" := 0x0000,
    "R1" := 0x0001,
    "R2" := 0x0002,
    "R3" := 0x0003,
    "R4" := 0x0004,
    "R5" := 0x0005,
    "R6" := 0x0006,
    "R7" := 0x0007,
    "R8" := 0x0008,
    "R9" := 0x0009,
    "R10" := 0x000a,
    "R11" := 0x000b,
    "R12" := 0x000c,
    "R13" := 0x000d,
    "R14" := 0x000e,
    "R15" := 0x000f,
    "SCREEN" := 0x4000,
    "KBD" := 0x6000
  ]

  /** The first RAM address handed out to a variable. */
  const FirstVariableAddress: Address := 0x0010

  /** A uint16 `++`: 0xFFFF wraps around to 0. */
  function Inc(a: Address): (r: Address)
    ensures r == (a + 1) % 0x10000
  {
    if a == 0xFFFF then 0 else a + 1
  }

  /** Every predefined symbol lies below the variables or in the I/O area from SCREEN on. */
  lemma {:induction false} PredefinedOutsideVariables(s: string)
    requires s in Predefined
    ensures Predefined[s] < FirstVariableAddress || Predefined[s] >= 0x4000
  {
  }

  /** The labels a list of commands defines. */
  predicate Defines(cmds: seq<Command>, s: string) {
    exists i :: 0 <= i < |cmds| && cmds[i] == LCommand(s)
  }

  /** How many of the commands are instructions (A- or C-commands): labels emit no word. */
  function InstructionCount(cmds: seq<Command>): (n: nat)
    ensures n <= |cmds|
  {
    if cmds == [] then 0
    else InstructionCount(cmds[..|cmds| - 1]) + (if cmds[|cmds| - 1].LCommand? then 0 else 1)
  }

  /**
    LoadLabelAddress as written: romAddr is incremented after every command,
    labels included, so a label is bound to its own position in the command
    list (modulo 2^16).
  */
  function LabelsAsWritten(table: map<string, Address>, cmds: seq<Command>): map<string, Address> {
    if cmds == [] then table
    else
      var t := LabelsAsWritten(table, cmds[..|cmds| - 1]);
      var c := cmds[|cmds| - 1];
      if c.LCommand? then t[c.symbol := (|cmds| - 1) % 0x10000] else t
  }

  /**
    The first pass as intended: a label is bound to the ROM address of the
    next instruction, the number of instructions before it.
  */
  function Labels(table: map<string, Address>, cmds: seq<Command>): map<string, Address> {
    if cmds == [] then table
    else
      var init := cmds[..|cmds| - 1];
      var t := Labels(table, init);
      var c := cmds[|cmds| - 1];
      if c.LCommand? then t[c.symbol := InstructionCount(init) % 0x10000] else t
  }

  /**
    The discrepancy: in `(START) @1 (LOOP) 0;JMP` the jump is the second
    instruction (ROM address 1), but LoadLabelAddress binds LOOP to 2.
  */
  lemma {:induction false} LabelsConsumeRomAddresses(table: map<string, Address>)
    ensures var cmds := [LCommand("START"), ACommand("1"), LCommand("LOOP"), CCommand("", "0", "JMP")];
      InstructionCount(cmds[..2]) == 1 &&
      "LOOP" in LabelsAsWritten(table, cmds) && LabelsAsWritten(table, cmds)["LOOP"] == 2 &&
      "LOOP" in Labels(table, cmds) && Labels(table, cmds)["LOOP"] == 1
  {
    var cmds := [LCommand("START"), ACommand("1"), LCommand("LOOP"), CCommand("", "0", "JMP")];
    assert cmds[..2][..1] == cmds[..1] && cmds[..1][..0] == [];
    LabelsAsWrittenValue(table, cmds, "LOOP", 2);
    LabelsValue(table, cmds, "LOOP", 2);
  }

  /**
    As written, the last definition of a label at position i binds it to i;
    a symbol the commands do not define keeps its entry.
  */
  lemma {:induction false} LabelsAsWrittenValue(table: map<string, Address>, cmds: seq<Command>, s: string, i: nat)
    requires i < |cmds| && cmds[i] == LCommand(s)
    requires forall j :: i < j < |cmds| ==> cmds[j] != LCommand(s)
    ensures s in LabelsAsWritten(table, cmds) && LabelsAsWritten(table, cmds)[s] == i % 0x10000
    decreases |cmds|
  {
    var init := cmds[..|cmds| - 1];
    if i < |cmds| - 1 {
      LabelsAsWrittenValue(table, init, s, i);
    }
  }

  /**
    As intended, the last definition of a label at position i binds it to
    the number of instructions before it.
  */
  lemma {:induction false} LabelsValue(table: map<string, Address>, cmds: seq<Command>, s: string, i: nat)
    requires i < |cmds| && cmds[i] == LCommand(s)
    requires forall j :: i < j < |cmds| ==> cmds[j] != LCommand(s)
    ensures s in Labels(table, cmds) && Labels(table, cmds)[s] == InstructionCount(cmds[..i]) % 0x10000
    decreases |cmds|
  {
    var init := cmds[..|cmds| - 1];
    if i < |cmds| - 1 {
      assert init[..i] == cmds[..i];
      LabelsValue(table, init, s, i);
    }
  }

  /** The first pass touches no symbol that is not a label of the commands. */
  lemma {:induction false} LabelsKeepOthers(table: map<string, Address>, cmds: seq<Command>, s: string)
    requires !Defines(cmds, s)
    ensures (s in Labels(table, cmds) <==> s in table) && (s in table ==> Labels(table, cmds)[s] == table[s])
    ensures (s in LabelsAsWritten(table, cmds) <==> s in table) && (s in table ==> LabelsAsWritten(table, cmds)[s] == table[s])
    decreases |cmds|
  {
    if cmds != [] {
      var init := cmds[..|cmds| - 1];
      assert !Defines(init, s) by {
        forall j | 0 <= j < |init| ensures init[j] != LCommand(s) {
          assert init[j] == cmds[j];
        }
      }
      LabelsKeepOthers(table, init, s);
      assert cmds[|cmds| - 1] != LCommand(s);
    }
  }

  /** A symbol table: the symbol bindings and the next free variable address. */
  class SymbolTable {
    var table: map<string, Address>
    var nextRAMAddress: Address

    /** NewSymbolTable: the predefined symbols, and variables from address 16. */
    constructor ()
      ensures table == Predefined && nextRAMAddress == FirstVariableAddress
    {
      table := Predefined;
      nextRAMAddress := FirstVariableAddress;
    }

    /** GetAddress: the bound address, and whether the symbol is bound at all. */
    function GetAddress(key: string): (r: Option<Address>)
      reads this
      ensures r.Some? <==> key in table
      ensures r.Some? ==> r.value == table[key]
    {
      if key in table then Some(table[key]) else None
    }

    /** AddEntry: binds (or rebinds) key, leaving the allocator alone. */
    method AddEntry(key: string, value: Address)
      modifies this
      ensures table == old(table)[key := value] && nextRAMAddress == old(nextRAMAddress)
    {
      table := table[key := value];
    }

    /** AddAutoEntry: binds key to the next free address, which it returns, and moves the allocator on. */
    method AddAutoEntry(key: string) returns (value: Address)
      modifies this
      ensures value == old(nextRAMAddress)
      ensures table == old(table)[key := value] && nextRAMAddress == Inc(old(nextRAMAddress))
    {
      value := nextRAMAddress;
      table := table[key := value];
      nextRAMAddress := Inc(nextRAMAddress);
    }

    /** LoadLabelAddress as written: every command, labels included, advances romAddr. */
    method LoadLabelAddress(cmds: seq<Command>)
      modifies this
      ensures table == LabelsAsWritten(old(table), cmds) && nextRAMAddress == old(nextRAMAddress)
    {
      var romAddr: Address := 0;
      var i := 0;
      while i < |cmds|
        invariant 0 <= i <= |cmds| && romAddr == i % 0x10000
        invariant table == LabelsAsWritten(old(table), cmds[..i]) && nextRAMAddress == old(nextRAMAddress)
      {
        assert cmds[..i + 1][..i] == cmds[..i];
        if cmds[i].LCommand? {
          AddEntry(cmds[i].symbol, romAddr);
        }
        romAddr := Inc(romAddr);
        i := i + 1;
      }
      assert cmds[..i] == cmds;
    }

    /** The first pass as intended: only instructions advance romAddr. */
    method LoadLabels(cmds: seq<Command>)
      modifies this
      ensures table == Labels(old(table), cmds) && nextRAMAddress == old(nextRAMAddress)
    {
      var romAddr: Address := 0;
      var i := 0;
      while i < |cmds|
        invariant 0 <= i <= |cmds| && romAddr == InstructionCount(cmds[..i]) % 0x10000
        invariant table == Labels(old(table), cmds[..i]) && nextRAMAddress == old(nextRAMAddress)
      {
        assert cmds[..i + 1][..i] == cmds[..i];
        if cmds[i].LCommand? {
          AddEntry(cmds[i].symbol, romAddr);
        } else {
          romAddr := Inc(romAddr);
        }
        i := i + 1;
      }
      assert cmds[..i] == cmds;
    }
  }
}
