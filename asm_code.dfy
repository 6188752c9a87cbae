/**
  The encoder of the second assembler (assembler/code.go): the same three
  mnemonic tables as projects/06/assembler/code.go, declared again, with the
  A- and C-command conversions as two functions. Both produce exactly the
  words of HackCode.
*/
module AsmCode {
  import opened Common
  import opened Text
  import opened HackCommands
  import HackCode

  type Word = bv16

  const JGT: Word := 1
  const JEQ: Word := 2
  const JLT: Word := 4
  const M: Word := 8
  const D: Word := 16
  const A: Word := 32
  const CInstructionMarker: Word := 0x7 << 13

  const JumpMnemonics: map<string, Word> := map[
    "" := 0,
    "JGT" := JGT,
    "JEQ" := JEQ,
    "JGE" := JGT | JEQ,
    "JLT" := JLT,
    "JNE" := JLT | JGT,
    "JLE" := JLT | JEQ,
    "JMP" := JLT | JEQ | JGT
  ]

  const DestMnemonics: map<string, Word> := map[
    "" := 0,
    "A" := A,
    "D" := D,
    "M" := M,
    "AD" := A | D,
    "AM" := A | M,
    "MD" := M | D,
    "AMD" := A | M | D
  ]

  /** The seven bits `a c1 c2 c3 c4 c5 c6` of each computation, written in hexadecimal, shifted into bits 12..6. */
  const CompMnemonics: map<string, Word> := map[
    "0" := 0x2A << 6,
    "1" := 0x3F << 6,
    "-1" := 0x3A << 6,
    "D" := 0x0C << 6,
    "A" := 0x30 << 6,
    "!D" := 0x0D << 6,
    "!A" := 0x31 << 6,
    "-D" := 0x0F << 6,
    "-A" := 0x33 << 6,
    "D+1" := 0x1F << 6,
    "A+1" := 0x37 << 6,
    "D-1" := 0x0E << 6,
    "A-1" := 0x32 << 6,
    "D+A" := 0x02 << 6,
    "D-A" := 0x13 << 6,
    "A-D" := 0x07 << 6,
    "D&A" := 0x00 << 6,
    "D|A" := 0x15 << 6,
    "M" := 0x70 << 6,
    "!M" := 0x71 << 6,
    "-M" := 0x73 << 6,
    "M+1" := 0x77 << 6,
    "M-1" := 0x72 << 6,
    "D+M" := 0x42 << 6,
    "D-M" := 0x53 << 6,
    "M-D" := 0x47 << 6,
    "D&M" := 0x40 << 6,
    "D|M" := 0x55 << 6
  ]

  /** A Go map index: the stored value, or 0 for a missing key. */
  function Lookup(table: map<string, Word>, key: string): Word {
    if key in table then table[key] else 0
  }

  /** This file's tables are the other assembler's, entry for entry. */
  lemma {:induction false} TablesAgree()
    ensures JumpMnemonics == HackCode.JumpMnemonics
    ensures DestMnemonics == HackCode.DestMnemonics
    ensures CompMnemonics == HackCode.CompMnemonics
  {
  }

  /** ConvertACommand: the symbol's value when it is a 16-bit decimal, otherwise an error. */
  function ConvertACommand(c: Command): (r: Option<HackCode.UInt16>)
    requires c.ACommand?
    ensures r.Some? <==> IsDecimal(c.symbol) && DecimalValue(c.symbol) <= 0xFFFF
    ensures r.Some? ==> r.value == DecimalValue(c.symbol)
  {
    var v :- ParseDecimal(c.symbol);
    if v <= 0xFFFF then Some(v) else None
  }

  /** Hence every lookup in this file's tables gives the other assembler's field bits. */
  lemma {:induction false} LookupsAgree(dest: string, comp: string, jump: string)
    ensures Lookup(JumpMnemonics, jump) == HackCode.JumpBits(jump)
    ensures Lookup(DestMnemonics, dest) == HackCode.DestBits(dest)
    ensures Lookup(CompMnemonics, comp) == HackCode.CompBits(comp)
  {
    TablesAgree();
  }

  /**
    ConvertCCommand: `comp | dest | jump | 0b111<<13`; it never fails. The
    word is the one the other assembler computes.
  */
  function ConvertCCommand(c: Command): (w: HackCode.UInt16)
    requires c.CCommand?
    ensures w == HackCode.CWord(c.dest, c.comp, c.jump) as int
  {
    var CCommand(dest, comp, jump) := c;
    LookupsAgree(dest, comp, jump);
    (Lookup(CompMnemonics, comp) | Lookup(DestMnemonics, dest) | Lookup(JumpMnemonics, jump) | CInstructionMarker) as int
  }

  /** The two assemblers encode every A- and C-command alike. */
  lemma {:induction false} ConvertAgrees(c: Command)
    requires !c.LCommand?
    ensures HackCode.CommandToBinaryCode(c) == if c.ACommand? then ConvertACommand(c) else Some(ConvertCCommand(c))
  {
  }
}
