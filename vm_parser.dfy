/**
  The VM translator's parser (vmtranslator/parser.go): lines of VM code are
  stripped of `//` comments and split into fields; blank lines are skipped,
  and the parser keeps one command of lookahead.
*/
module VmParser {
  import opened Common
  import opened Text

  datatype CommandType = CArithmetic | CPush | CPop | CLabel | CGoto | CIf | CFunction | CReturn | CCall

  const ArithmeticWords: seq<string> := ["add", "sub", "neg", "eq", "gt", "lt", "and", "or", "not"]

  /** The first field of each command type other than the arithmetic one. */
  function Keyword(t: CommandType): string
    requires t != CArithmetic
  {
    match t
    case CPush => "push"
    case CPop => "pop"
    case CLabel => "label"
    case CGoto => "goto"
    case CIf => "if-goto"
    case CFunction => "function"
    case CReturn => "return"
    case CCall => "call"
  }

  const Keywords: seq<string> := ["push", "pop", "label", "goto", "if-goto", "function", "return", "call"]

  /** trimComment: the text before the first `//`, or the whole line when there is none. */
  function TrimComment(line: string): (r: string)
    ensures HasPrefix(line, r)
    ensures forall j :: 0 <= j <= |r| ==> !OccursAt(r, "//", j)
    ensures r != line ==> OccursAt(line, "//", |r|)
  {
    BeforeFirst(line, "//")
  }

  /** The fields of a line once its comment is dropped: what Advance keeps as a command. */
  function CommandOf(line: string): seq<string> {
    Fields(TrimComment(line))
  }

  /** The commands of a list of lines, in order: one per line that has fields. */
  function Commands(lines: seq<string>): (cs: seq<seq<string>>)
    ensures forall k :: 0 <= k < |cs| ==> |cs[k]| > 0
  {
    if lines == [] then []
    else
      var c := CommandOf(lines[|lines| - 1]);
      Commands(lines[..|lines| - 1]) + (if c == [] then [] else [c])
  }

  /** The commands of the first lines are the first commands of all the lines. */
  lemma {:induction false} CommandsPrefix(lines: seq<string>, k: nat)
    requires k <= |lines|
    ensures |Commands(lines[..k])| <= |Commands(lines)|
    ensures Commands(lines)[..|Commands(lines[..k])|] == Commands(lines[..k])
    decreases |lines|
  {
    if k < |lines| {
      var init := lines[..|lines| - 1];
      assert init[..k] == lines[..k];
      CommandsPrefix(init, k);
      assert Commands(lines)[..|Commands(init)|] == Commands(init);
    } else {
      assert lines[..k] == lines;
    }
  }

  /** One more line read: a blank line adds no command, a line with fields adds the next command of the input. */
  lemma {:induction false} ScanLine(lines: seq<string>, i: nat, k: nat)
    requires i < |lines| && k <= |Commands(lines)| && Commands(lines[..i]) == Commands(lines)[..k]
    ensures var fields := CommandOf(lines[i]);
      (fields == [] ==> Commands(lines[..i + 1]) == Commands(lines)[..k]) &&
      (fields != [] ==> k < |Commands(lines)| && Commands(lines)[k] == fields && Commands(lines[..i + 1]) == Commands(lines)[..k + 1])
  {
    var cs := Commands(lines);
    assert lines[..i + 1][..i] == lines[..i];
    CommandsPrefix(lines, i + 1);
    if CommandOf(lines[i]) != [] {
      assert Commands(lines[..i + 1]) == cs[..k] + [CommandOf(lines[i])];
      assert cs[..k + 1] == Commands(lines[..i + 1]);
    }
  }

  /** All lines read: every command has been found. */
  lemma {:induction false} ScanEnd(lines: seq<string>, k: nat)
    requires k <= |Commands(lines)| && Commands(lines[..|lines|]) == Commands(lines)[..k]
    ensures k == |Commands(lines)|
  {
    assert lines[..|lines|] == lines;
  }

  /**
    The scan loop of Advance: from line `from`, skip the lines without fields;
    either the next command of the input is found, or every command was.
  */
  method FindNext(lines: seq<string>, from: nat, ghost k: nat) returns (i: nat, found: bool, fields: seq<string>)
    requires from <= |lines| && k <= |Commands(lines)| && Commands(lines[..from]) == Commands(lines)[..k]
    ensures from <= i <= |lines|
    ensures found ==> from < i && k < |Commands(lines)| && fields == Commands(lines)[k] && Commands(lines[..i]) == Commands(lines)[..k + 1]
    ensures !found ==> i == |lines| && k == |Commands(lines)|
  {
    i := from;
    while i < |lines|
      invariant from <= i <= |lines| && Commands(lines[..i]) == Commands(lines)[..k]
      decreases |lines| - i
    {
      var f := CommandOf(lines[i]);
      ScanLine(lines, i, k);
      if f != [] {
        return i + 1, true, f;
      }
      i := i + 1;
    }
    ScanEnd(lines, k);
    return i, false, [];
  }

  /**
    CommandType: the nine arithmetic words, the eight keywords each to its
    own type, and failure (Die) on any other first field or on a command
    with no fields.
  */
  function CommandTypeOf(cmd: seq<string>): (r: Option<CommandType>)
    ensures r == Some(CArithmetic) <==> |cmd| > 0 && cmd[0] in ArithmeticWords
    ensures r.Some? && r.value != CArithmetic ==> |cmd| > 0 && cmd[0] == Keyword(r.value)
    ensures r.None? <==> |cmd| == 0 || (cmd[0] !in ArithmeticWords && cmd[0] !in Keywords)
  {
    if |cmd| == 0 then None
    else
      var w := cmd[0];
      if w in ArithmeticWords then Some(CArithmetic)
      else if w == "push" then Some(CPush)
      else if w == "pop" then Some(CPop)
      else if w == "label" then Some(CLabel)
      else if w == "goto" then Some(CGoto)
      else if w == "if-goto" then Some(CIf)
      else if w == "function" then Some(CFunction)
      else if w == "return" then Some(CReturn)
      else if w == "call" then Some(CCall)
      else None
  }

  /** Every keyword is recognised as its own type: CommandType is a left inverse of Keyword. */
  lemma {:induction false} KeywordTypes(t: CommandType, rest: seq<string>)
    requires t != CArithmetic
    ensures CommandTypeOf([Keyword(t)] + rest) == Some(t)
  {
    assert ([Keyword(t)] + rest)[0] == Keyword(t);
  }

  /**
    Arg1: the command word itself for arithmetic, otherwise the second field;
    it fails for `return` (the Assert) and when there is no second field.
  */
  function Arg1(cmd: seq<string>): (r: Option<string>)
    ensures r.Some? ==> CommandTypeOf(cmd).Some? && CommandTypeOf(cmd) != Some(CReturn)
    ensures CommandTypeOf(cmd) == Some(CArithmetic) ==> r == Some(cmd[0])
    ensures CommandTypeOf(cmd).Some? && CommandTypeOf(cmd) !in {Some(CArithmetic), Some(CReturn)} ==>
      r == (if |cmd| >= 2 then Some(cmd[1]) else None)
  {
    var t :- CommandTypeOf(cmd);
    if t == CReturn then None
    else if t == CArithmetic then Some(cmd[0])
    else if |cmd| < 2 then None
    else Some(cmd[1])
  }

  /** The command types that carry a second argument. */
  predicate HasArg2(t: CommandType) {
    t == CPush || t == CPop || t == CFunction || t == CCall
  }

  /**
    Arg2: allowed only for push, pop, function and call, and then the third
    field read by strconv.Atoi, within the 64-bit range; anything else fails.
  */
  function Arg2(cmd: seq<string>): (r: Option<int>)
    ensures r.Some? <==> (CommandTypeOf(cmd).Some? && HasArg2(CommandTypeOf(cmd).value) && |cmd| >= 3 &&
                          IsDecimal(cmd[2]) && DecimalValue(cmd[2]) <= MaxInt)
    ensures r.Some? ==> r.value == DecimalValue(cmd[2])
  {
    var t :- CommandTypeOf(cmd);
    if !HasArg2(t) || |cmd| < 3 then None
    else
      var v :- Atoi(cmd[2]);
      Some(v)
  }

  /**
    The parser over the lines of its input. `pos` is how far the scanner has
    read; `taken` (ghost) counts the commands Advance has made current.
  */
  class Parser {
    const lines: seq<string>
    var pos: nat
    var currentCommand: seq<string>
    var nextCommand: seq<string>
    var isEOF: bool
    ghost var taken: nat

    /**
      The lookahead invariant: the lines read so far hold exactly the commands
      taken plus the one waiting in nextCommand, and at end of input every
      command has been taken.
    */
    ghost predicate Valid()
      reads this
    {
      var cs := Commands(lines);
      pos <= |lines| && taken <= |cs| &&
      (isEOF ==> pos == |lines| && taken == |cs| && nextCommand == []) &&
      (!isEOF ==> taken < |cs| && nextCommand == cs[taken] && Commands(lines[..pos]) == cs[..taken + 1])
    }

    /** NewParser: no current command yet, the first command loaded as lookahead. */
    constructor (input: seq<string>)
      ensures Valid() && lines == input && taken == 0 && currentCommand == []
    {
      lines := input;
      pos := 0;
      currentCommand := [];
      nextCommand := [];
      isEOF := false;
      taken := 0;
      new;
      assert lines[..0] == [];
      ScanNext();
    }

    /** HasMoreCommands: true until the last command has been made current. */
    function HasMoreCommands(): (b: bool)
      reads this
      requires Valid()
      ensures b <==> taken < |Commands(lines)|
    {
      !isEOF
    }

    /** The scan loop of Advance: the next line with fields becomes the lookahead, or the input ends. */
    method ScanNext()
      requires pos <= |lines| && taken <= |Commands(lines)| && Commands(lines[..pos]) == Commands(lines)[..taken]
      requires isEOF ==> pos == |lines|
      modifies this
      ensures Valid() && taken == old(taken) && currentCommand == old(currentCommand)
    {
      var i, found, fields := FindNext(lines, pos, taken);
      if found {
        pos, nextCommand := i, fields;
      } else {
        pos, nextCommand, isEOF := i, [], true;
      }
    }

    /**
      Advance: the lookahead becomes the current command (the next command of
      the input, in order) and the command after it is loaded. At end of
      input the current command becomes empty.
    */
    method Advance()
      requires Valid()
      modifies this
      ensures Valid() && currentCommand == old(nextCommand)
      ensures !old(isEOF) ==> taken == old(taken) + 1 && currentCommand == Commands(lines)[old(taken)]
      ensures old(isEOF) ==> taken == old(taken) && currentCommand == [] && isEOF
    {
      currentCommand := nextCommand;
      if !isEOF {
        taken := taken + 1;
      } else {
        assert lines[..pos] == lines;
      }
      ScanNext();
    }
  }
}
