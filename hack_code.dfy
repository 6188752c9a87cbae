/**
  The Hack machine-language encoder (projects/06/assembler/code.go): an
  A-command is its 16-bit decimal value; a C-command is the word
  `111a cccc ccdd djjj`, the bitwise OR of three table lookups and the
  instruction marker; a label has no encoding.
*/
module HackCode {
  import opened Common
  import opened Text
  import opened HackCommands

  /** Go's uint16. */
  type Word = bv16

  const JGT: Word := 1
  const JEQ: Word := 2
  const JLT: Word := 4
  const DestM: Word := 8
  const DestD: Word := 16
  const DestA: Word := 32
  /** Bits 15..13, set in every C-instruction. */
  const CInstructionMarker: Word := 0x7 << 13

  /** The bits of each field of a C-instruction. */
  const JumpField: Word := 0x0007
  const DestField: Word := 0x0038
  const CompField: Word := 0x1FC0
  /** The a-bit: the computation reads M instead of A. */
  const ABit: Word := 0x1000

  const JumpMnemonics: map<string, Word> := map[
    "" := 0,
    "JGT" := JGT,
    "JEQ" := JEQ,
    "JGE" := JGT | JEQ,
    "JLT" := JLT,
    "JNE" := JLT | JGT,
    "JLE" := JLT | JEQ,
    "JMP" := JLT | JEQ | JGT
  ]

  const DestMnemonics: map<string, Word> := map[
    "" := 0,
    "A" := DestA,
    "D" := DestD,
    "M" := DestM,
    "AD" := DestA | DestD,
    "AM" := DestA | DestM,
    "MD" := DestM | DestD,
    "AMD" := DestA | DestM | DestD
  ]

  /** The seven bits `a c1 c2 c3 c4 c5 c6` of each computation, written in hexadecimal, shifted into bits 12..6. */
  const CompMnemonics: map<string, Word> := map[
    "0" := 0x2A << 6,
    "1" := 0x3F << 6,
    "-1" := 0x3A << 6,
    "D" := 0x0C << 6,
    "A" := 0x30 << 6,
    "!D" := 0x0D << 6,
    "!A" := 0x31 << 6,
    "-D" := 0x0F << 6,
    "-A" := 0x33 << 6,
    "D+1" := 0x1F << 6,
    "A+1" := 0x37 << 6,
    "D-1" := 0x0E << 6,
    "A-1" := 0x32 << 6,
    "D+A" := 0x02 << 6,
    "D-A" := 0x13 << 6,
    "A-D" := 0x07 << 6,
    "D&A" := 0x00 << 6,
    "D|A" := 0x15 << 6,
    "M" := 0x70 << 6,
    "!M" := 0x71 << 6,
    "-M" := 0x73 << 6,
    "M+1" := 0x77 << 6,
    "M-1" := 0x72 << 6,
    "D+M" := 0x42 << 6,
    "D-M" := 0x53 << 6,
    "M-D" := 0x47 << 6,
    "D&M" := 0x40 << 6,
    "D|M" := 0x55 << 6
  ]

  /** A Go map index: the stored value, or 0 for a missing key. */
  function Lookup(table: map<string, Word>, key: string): Word {
    if key in table then table[key] else 0
  }

  /** The jump bits of a mnemonic lie in bits 2..0. */
  function JumpBits(jump: string): (b: Word)
    ensures b & !JumpField == 0
  {
    Lookup(JumpMnemonics, jump)
  }

  /** The dest bits of a mnemonic lie in bits 5..3. */
  function DestBits(dest: string): (b: Word)
    ensures b & !DestField == 0
  {
    Lookup(DestMnemonics, dest)
  }

  /** The comp bits of a mnemonic lie in bits 12..6. */
  function CompBits(comp: string): (b: Word)
    ensures b & !CompField == 0
  {
    Lookup(CompMnemonics, comp)
  }

  /**
    The C-instruction word: the marker bits are set, and masking recovers
    each of the three fields, which are therefore disjoint.
  */
  function CWord(dest: string, comp: string, jump: string): (w: Word)
    ensures w & CInstructionMarker == CInstructionMarker
    ensures w & JumpField == JumpBits(jump)
    ensures w & DestField == DestBits(dest)
    ensures w & CompField == CompBits(comp)
  {
    CompBits(comp) | DestBits(dest) | JumpBits(jump) | CInstructionMarker
  }

  /** A 16-bit machine word as a number: Go's uint16 value of the instruction. */
  type UInt16 = x: int | 0 <= x < 0x10000

  /** strconv.ParseUint(symbol, 10, 16): a decimal numeral whose value fits in 16 bits. */
  function AWord(symbol: string): (r: Option<UInt16>)
    ensures r.Some? <==> IsDecimal(symbol) && DecimalValue(symbol) <= 0xFFFF
    ensures r.Some? ==> r.value == DecimalValue(symbol)
  {
    var v :- ParseDecimal(symbol);
    if v <= 0xFFFF then Some(v) else None
  }

  /**
    CommandToBinaryCode: an A-command is its value (an error unless it is a
    16-bit decimal), a C-command its instruction word, and a label has no
    encoding (the panic).
  */
  function CommandToBinaryCode(c: Command): (r: Option<UInt16>)
    ensures c.LCommand? ==> r.None?
    ensures c.ACommand? ==> (r.Some? <==> IsDecimal(c.symbol) && DecimalValue(c.symbol) <= 0xFFFF)
    ensures c.ACommand? && r.Some? ==> r.value == DecimalValue(c.symbol)
    ensures c.CCommand? ==> r == Some(CWord(c.dest, c.comp, c.jump) as int) && r.value >= 0xE000
  {
    match c
    case ACommand(s) => AWord(s)
    case CCommand(d, cp, j) => Some(CWord(d, cp, j) as int)
    case LCommand(_) => None
  }

  /** The jump mnemonic whose code is b, if there is one: the inverse of the table. */
  function JumpMnemonicOf(b: Word): Option<string> {
    if b == 0 then Some("")
    else if b == JGT then Some("JGT")
    else if b == JEQ then Some("JEQ")
    else if b == JGT | JEQ then Some("JGE")
    else if b == JLT then Some("JLT")
    else if b == JLT | JGT then Some("JNE")
    else if b == JLT | JEQ then Some("JLE")
    else if b == JLT | JEQ | JGT then Some("JMP")
    else None
  }

  /** The dest mnemonic whose code is b, if there is one: the inverse of the table. */
  function DestMnemonicOf(b: Word): Option<string> {
    if b == 0 then Some("")
    else if b == DestA then Some("A")
    else if b == DestD then Some("D")
    else if b == DestM then Some("M")
    else if b == DestA | DestD then Some("AD")
    else if b == DestA | DestM then Some("AM")
    else if b == DestM | DestD then Some("MD")
    else if b == DestA | DestM | DestD then Some("AMD")
    else None
  }

  /** The comp mnemonic whose code is b, if there is one: the inverse of the table. */
  function CompMnemonicOf(b: Word): Option<string> {
    if b == 0x2A << 6 then Some("0")
    else if b == 0x3F << 6 then Some("1")
    else if b == 0x3A << 6 then Some("-1")
    else if b == 0x0C << 6 then Some("D")
    else if b == 0x30 << 6 then Some("A")
    else if b == 0x0D << 6 then Some("!D")
    else if b == 0x31 << 6 then Some("!A")
    else if b == 0x0F << 6 then Some("-D")
    else if b == 0x33 << 6 then Some("-A")
    else if b == 0x1F << 6 then Some("D+1")
    else if b == 0x37 << 6 then Some("A+1")
    else if b == 0x0E << 6 then Some("D-1")
    else if b == 0x32 << 6 then Some("A-1")
    else if b == 0x02 << 6 then Some("D+A")
    else if b == 0x13 << 6 then Some("D-A")
    else if b == 0x07 << 6 then Some("A-D")
    else if b == 0x00 << 6 then Some("D&A")
    else if b == 0x15 << 6 then Some("D|A")
    else if b == 0x70 << 6 then Some("M")
    else if b == 0x71 << 6 then Some("!M")
    else if b == 0x73 << 6 then Some("-M")
    else if b == 0x77 << 6 then Some("M+1")
    else if b == 0x72 << 6 then Some("M-1")
    else if b == 0x42 << 6 then Some("D+M")
    else if b == 0x53 << 6 then Some("D-M")
    else if b == 0x47 << 6 then Some("M-D")
    else if b == 0x40 << 6 then Some("D&M")
    else if b == 0x55 << 6 then Some("D|M")
    else None
  }

  /** Decoding a jump code gives back its mnemonic. */
  lemma {:induction false} JumpRoundTrip(jump: string)
    requires jump in JumpMnemonics
    ensures JumpMnemonicOf(JumpBits(jump)) == Some(jump)
  {
  }

  /** Decoding a dest code gives back its mnemonic. */
  lemma {:induction false} DestRoundTrip(dest: string)
    requires dest in DestMnemonics
    ensures DestMnemonicOf(DestBits(dest)) == Some(dest)
  {
  }

  /** Decoding a comp code gives back its mnemonic. */
  lemma {:induction false} CompRoundTrip(comp: string)
    requires comp in CompMnemonics
    ensures CompMnemonicOf(CompBits(comp)) == Some(comp)
  {
    if comp in {"M", "!M", "-M", "M+1", "M-1", "D+M", "D-M", "M-D", "D&M", "D|M"} {
      CompRoundTripM(comp);
    } else if comp in {"A", "!A", "-A", "A+1", "A-1", "D+A", "D-A", "A-D", "D&A", "D|A"} {
      CompRoundTripA(comp);
    } else {
      CompRoundTripD(comp);
    }
  }

  /** CompRoundTrip for the computations that read M. */
  lemma {:induction false} CompRoundTripM(comp: string)
    requires comp in {"M", "!M", "-M", "M+1", "M-1", "D+M", "D-M", "M-D", "D&M", "D|M"}
    ensures CompMnemonicOf(CompBits(comp)) == Some(comp)
  {
  }

  /** CompRoundTrip for the computations that read A. */
  lemma {:induction false} CompRoundTripA(comp: string)
    requires comp in {"A", "!A", "-A", "A+1", "A-1", "D+A", "D-A", "A-D", "D&A", "D|A"}
    ensures CompMnemonicOf(CompBits(comp)) == Some(comp)
  {
  }

  /** CompRoundTrip for the constants and the computations on D alone. */
  lemma {:induction false} CompRoundTripD(comp: string)
    requires comp in {"0", "1", "-1", "D", "!D", "-D", "D+1", "D-1"}
    ensures CompMnemonicOf(CompBits(comp)) == Some(comp)
  {
  }

  /** A C-instruction word read back: each field masked out and decoded; None for a code no mnemonic has. */
  function Disassemble(w: Word): (r: Option<Command>)
    ensures r.Some? ==> r.value.CCommand?
  {
    var dest :- DestMnemonicOf(w & DestField);
    var comp :- CompMnemonicOf(w & CompField);
    var jump :- JumpMnemonicOf(w & JumpField);
    Some(CCommand(dest, comp, jump))
  }

  /**
    The encoding loses nothing for known mnemonics: disassembling a
    C-instruction word gives back its dest, comp and jump.
  */
  lemma {:induction false} CWordRoundTrip(dest: string, comp: string, jump: string)
    requires dest in DestMnemonics && comp in CompMnemonics && jump in JumpMnemonics
    ensures Disassemble(CWord(dest, comp, jump)) == Some(CCommand(dest, comp, jump))
  {
    DestRoundTrip(dest);
    CompRoundTrip(comp);
    JumpRoundTrip(jump);
  }

  /** Hence distinct known C-commands have distinct words. */
  lemma {:induction false} CWordInjective(d1: string, c1: string, j1: string, d2: string, c2: string, j2: string)
    requires d1 in DestMnemonics && c1 in CompMnemonics && j1 in JumpMnemonics
    requires d2 in DestMnemonics && c2 in CompMnemonics && j2 in JumpMnemonics
    requires CWord(d1, c1, j1) == CWord(d2, c2, j2)
    ensures d1 == d2 && c1 == c2 && j1 == j2
  {
    CWordRoundTrip(d1, c1, j1);
    CWordRoundTrip(d2, c2, j2);
  }

  /**
    An unknown mnemonic encodes as 0 in its own field, whatever the other two
    are; with all three unknown the word is the marker alone.
  */
  lemma {:induction false} UnknownMnemonics(dest: string, comp: string, jump: string)
    ensures jump !in JumpMnemonics ==> CWord(dest, comp, jump) & JumpField == 0
    ensures dest !in DestMnemonics ==> CWord(dest, comp, jump) & DestField == 0
    ensures comp !in CompMnemonics ==> CWord(dest, comp, jump) & CompField == 0
    ensures dest !in DestMnemonics && comp !in CompMnemonics && jump !in JumpMnemonics ==> CWord(dest, comp, jump) == CInstructionMarker
  {
  }

  /** Below 32768 an A-command's value can never be mistaken for a C-instruction, whose value is at least 0xE000. */
  lemma {:induction false} ACommandBelowCInstructions(symbol: string, dest: string, comp: string, jump: string)
    requires AWord(symbol).Some? && DecimalValue(symbol) < 0x8000
    ensures AWord(symbol) != CommandToBinaryCode(CCommand(dest, comp, jump))
  {
  }

  /**
    Whether a jump mnemonic jumps when the computed value is d: the
    comparison of d with 0 that it names.
  */
  predicate JumpTaken(jump: string, d: int) {
    (jump == "JGT" && d > 0) || (jump == "JEQ" && d == 0) || (jump == "JGE" && d >= 0) ||
    (jump == "JLT" && d < 0) || (jump == "JNE" && d != 0) || (jump == "JLE" && d <= 0) || jump == "JMP"
  }

  /** The jump bits mean "jump if positive", "if zero" and "if negative", as the mnemonic says. */
  lemma {:induction false} JumpBitsMeaning(jump: string, d: int)
    requires jump in JumpMnemonics
    ensures JumpTaken(jump, d) <==>
      (d > 0 && JumpBits(jump) & JGT != 0) || (d == 0 && JumpBits(jump) & JEQ != 0) || (d < 0 && JumpBits(jump) & JLT != 0)
  {
  }

  /** Each dest bit is set exactly when its register's letter is in the mnemonic. */
  lemma {:induction false} DestBitsMeaning(dest: string)
    requires dest in DestMnemonics
    ensures DestBits(dest) & DestA != 0 <==> 'A' in dest
    ensures DestBits(dest) & DestD != 0 <==> 'D' in dest
    ensures DestBits(dest) & DestM != 0 <==> 'M' in dest
  {
  }

  /** The a-bit is set exactly for the computations that read M. */
  lemma {:induction false} ABitMeaning(comp: string)
    requires comp in CompMnemonics
    ensures CompBits(comp) & ABit != 0 <==> 'M' in comp
  {
  }
}
