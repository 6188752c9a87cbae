/**
  The Hack assembler's parser (projects/06/assembler/parser.go): the input
  is cut into tokens, one per line that still has text once its `//`
  comment and its surrounding white space are gone, and each token is
  parsed into a command.
*/
module HackParser {
  import opened Common
  import opened Text
  import opened HackCommands

  /** bytes.Index(s, "//") searched from i: the first `//` at or after i, or |s| when there is none. */
  function CommentAt(s: string, i: nat): (r: nat)
    requires i <= |s|
    ensures i <= r <= |s|
    decreases |s| - i
  {
    if i + 2 > |s| then |s|
    else if s[i] == '/' && s[i + 1] == '/' then i
    else CommentAt(s, i + 1)
  }

  /** CommentAt finds the first `//`: one starts there, unless there is none at all, and none starts before. */
  lemma {:induction false} CommentAtFirst(s: string, i: nat)
    requires i <= |s|
    ensures CommentAt(s, i) < |s| ==> OccursAt(s, "//", CommentAt(s, i))
    ensures forall j :: i <= j < CommentAt(s, i) ==> !OccursAt(s, "//", j)
    ensures CommentAt(s, i) == |s| ==> !OccursAt(s, "//", |s|)
    decreases |s| - i
  {
    if i + 2 > |s| {
      forall j | i <= j < |s| ensures !OccursAt(s, "//", j) {}
    } else if s[i] == '/' && s[i + 1] == '/' {
      assert s[i..i + 2] == "//";
    } else {
      assert s[i..i + 2] != "//" by {
        assert s[i..i + 2][0] == s[i] && s[i..i + 2][1] == s[i + 1];
      }
      CommentAtFirst(s, i + 1);
    }
  }

  /** What scanCommand keeps of one line: the text before the first `//`, trimmed. */
  function CleanLine(line: string): (r: string)
    ensures Trimmed(r)
  {
    TrimWithin(line, 0, CommentAt(line, 0))
  }

  /** CleanLine is bytes.TrimSpace(token[:i]) for the first `//` at i (the whole line when there is none). */
  lemma {:induction false} CleanLineIsTrimSpace(line: string)
    ensures CleanLine(line) == TrimSpace(line[..CommentAt(line, 0)])
  {
    TrimWithinPrefix(line, CommentAt(line, 0));
  }

  /** A cleaned line holds no comment: it lies inside the text before the first `//`. */
  lemma {:induction false} CleanLineHasNoComment(line: string)
    ensures forall j :: 0 <= j <= |CleanLine(line)| ==> !OccursAt(CleanLine(line), "//", j)
  {
    var c := CommentAt(line, 0);
    CommentAtFirst(line, 0);
    var a := SpaceRunEnd(line, 0, c);
    var b := SpaceRunStart(line, c, a);
    var r := line[a..b];
    forall j | 0 <= j <= |r| && OccursAt(r, "//", j) ensures OccursAt(line, "//", a + j) && a + j < c {
      assert |r| == b - a && j + 2 <= b - a;
      assert r[j..j + 2][0] == r[j] == line[a + j] && r[j..j + 2][1] == r[j + 1] == line[a + j + 1];
      assert line[a + j..a + j + 2] == "//";
    }
  }

  /** The tokens of a list of lines, in order: one per line with text left. */
  function Tokens(lines: seq<string>): seq<string>
  {
    if lines == [] then []
    else
      var t := CleanLine(lines[|lines| - 1]);
      Tokens(lines[..|lines| - 1]) + (if t == [] then [] else [t])
  }

  /** scanCommand never yields an empty token, one with white space around it, or one holding a comment. */
  lemma {:induction false} TokensAreClean(lines: seq<string>, k: nat)
    requires k < |Tokens(lines)|
    ensures var t := Tokens(lines)[k];
      t != [] && Trimmed(t) && forall j :: 0 <= j <= |t| ==> !OccursAt(t, "//", j)
    decreases |lines|
  {
    var n := |lines| - 1;
    var init := lines[..n];
    assert lines[..n + 1] == lines;
    TokensSnoc(lines, n);
    if k < |Tokens(init)| {
      TokensAreClean(init, k);
      assert Tokens(lines)[k] == Tokens(init)[k];
    } else {
      CleanLineHasNoComment(lines[n]);
      assert Tokens(lines)[k] == CleanLine(lines[n]);
    }
  }

  /** The tokens of the first lines are the first tokens of all the lines. */
  lemma {:induction false} TokensPrefix(lines: seq<string>, k: nat)
    requires k <= |lines|
    ensures |Tokens(lines[..k])| <= |Tokens(lines)|
    ensures Tokens(lines)[..|Tokens(lines[..k])|] == Tokens(lines[..k])
    decreases |lines|
  {
    if k < |lines| {
      var init := lines[..|lines| - 1];
      assert init[..k] == lines[..k];
      TokensPrefix(init, k);
      assert Tokens(lines)[..|Tokens(init)|] == Tokens(init);
    } else {
      assert lines[..k] == lines;
    }
  }

  /** Tokens grows by the cleaned line, when it has text left. */
  lemma {:induction false} TokensSnoc(lines: seq<string>, i: nat)
    requires i < |lines|
    ensures Tokens(lines[..i + 1]) == Tokens(lines[..i]) + (if CleanLine(lines[i]) == [] then [] else [CleanLine(lines[i])])
  {
    assert lines[..i + 1][..i] == lines[..i];
  }

  /** The first i lines hold exactly the first k tokens. */
  predicate Scanned(lines: seq<string>, i: nat, k: nat) {
    i <= |lines| && k <= |Tokens(lines)| && Tokens(lines[..i]) == Tokens(lines)[..k]
  }

  /** One more line read: a line left blank adds no token, any other adds the next token. */
  lemma {:induction false} ScanLine(lines: seq<string>, i: nat, k: nat)
    requires i < |lines| && Scanned(lines, i, k)
    ensures var t := CleanLine(lines[i]);
      (t == [] ==> Scanned(lines, i + 1, k)) &&
      (t != [] ==> k < |Tokens(lines)| && Tokens(lines)[k] == t && Scanned(lines, i + 1, k + 1))
  {
    var ts := Tokens(lines);
    var t := CleanLine(lines[i]);
    TokensSnoc(lines, i);
    TokensPrefix(lines, i + 1);
    if t != [] {
      var next := Tokens(lines[..i + 1]);
      assert next == ts[..k] + [t];
      assert ts[..|next|] == next && |next| == k + 1;
      assert ts[k] == next[k] == t;
    }
  }

  /** All lines read: every token has been found. */
  lemma {:induction false} ScanEnd(lines: seq<string>, k: nat)
    requires Scanned(lines, |lines|, k)
    ensures k == |Tokens(lines)|
  {
    assert lines[..|lines|] == lines;
  }

  /**
    What one call of scanCommand yields from line `from` on: the line after
    the next line with text left, and that text; None once the input is used up.
  */
  function NextToken(lines: seq<string>, from: nat): Option<(nat, string)>
    requires from <= |lines|
    decreases |lines| - from
  {
    if from == |lines| then None
    else
      var t := CleanLine(lines[from]);
      if t != [] then Some((from + 1, t)) else NextToken(lines, from + 1)
  }

  /** NextToken yields the tokens one by one, in order, and None exactly when all were taken. */
  lemma {:induction false} NextTokenInOrder(lines: seq<string>, from: nat, k: nat)
    requires from <= |lines| && Scanned(lines, from, k)
    ensures NextToken(lines, from).None? <==> k == |Tokens(lines)|
    ensures NextToken(lines, from).None? ==> Scanned(lines, |lines|, k)
    ensures NextToken(lines, from).Some? ==>
      var next := NextToken(lines, from).value;
      from < next.0 <= |lines| && k < |Tokens(lines)| && next.1 == Tokens(lines)[k] && Scanned(lines, next.0, k + 1)
    decreases |lines| - from
  {
    if from == |lines| {
      ScanEnd(lines, k);
    } else {
      ScanLine(lines, from, k);
      if CleanLine(lines[from]) == [] {
        NextTokenInOrder(lines, from + 1, k);
      }
    }
  }

  /**
    scanCommand: from line `from` (the `start` accumulator), skip the lines
    left blank and stop after the first line with text left.
  */
  method ScanCommand(lines: seq<string>, from: nat) returns (i: nat, found: bool, token: string)
    requires from <= |lines|
    ensures found ==> NextToken(lines, from) == Some((i, token))
    ensures !found ==> NextToken(lines, from).None? && i == |lines|
  {
    i := from;
    while i < |lines|
      invariant from <= i <= |lines| && NextToken(lines, from) == NextToken(lines, i)
      decreases |lines| - i
    {
      var t := CleanLine(lines[i]);
      if t != [] {
        return i + 1, true, t;
      }
      i := i + 1;
    }
    return i, false, [];
  }

  /** parseACommand: the symbol is everything after the `@` (the Assert is the precondition). */
  function ParseA(word: string): (c: Command)
    requires |word| > 0 && word[0] == '@'
    ensures c.ACommand? && "@" + c.symbol == word
  {
    ACommand(word[1..])
  }

  /** The dest part and the rest: split at the first `=`, if any. */
  function SplitDest(word: string): (string, string) {
    match IndexOf(word, "=")
    case Some(i) => (TrimSpace(word[..i]), word[i + 1..])
    case None => ("", word)
  }

  /** The jump part and the comp text: split at the first `;`, if any. */
  function SplitJump(rest: string): (string, string) {
    match IndexOf(rest, ";")
    case Some(i) => (TrimSpace(rest[i + 1..]), rest[..i])
    case None => ("", rest)
  }

  /**
    parseCCommand: dest is the trimmed text before the first `=`, jump the
    trimmed text after the first `;` of what follows, comp the trimmed rest;
    a missing part is empty.
  */
  function ParseC(word: string): (c: Command)
    ensures c.CCommand? && Trimmed(c.dest) && Trimmed(c.comp) && Trimmed(c.jump)
  {
    var (dest, rest) := SplitDest(word);
    var (jump, comp) := SplitJump(rest);
    CCommand(dest, TrimSpace(comp), jump)
  }

  /** parseLCommand: the token must end in `)`; the symbol is the trimmed text in between. */
  function ParseL(word: string): (r: Option<Command>)
    requires |word| > 0 && word[0] == '('
    ensures r.Some? <==> word[|word| - 1] == ')'
    ensures r.Some? ==> r.value.LCommand? && Trimmed(r.value.symbol) && |r.value.symbol| <= |word| - 2
  {
    if word[|word| - 1] != ')' then None
    else Some(LCommand(TrimSpace(word[1..|word| - 1])))
  }

  /** parse: dispatch on the first character, `@` to an A-command, `(` to a label, anything else to a C-command. */
  function Parse(word: string): (r: Option<Command>)
    ensures HasPrefix(word, "@") ==> r == Some(ACommand(word[1..]))
    ensures HasPrefix(word, "(") ==> r.None? || r.value.LCommand?
    ensures !HasPrefix(word, "@") && !HasPrefix(word, "(") ==> r.Some? && r.value.CCommand?
    ensures r.None? <==> HasPrefix(word, "(") && word[|word| - 1] != ')'
  {
    if HasPrefix(word, "@") then Some(ParseA(word))
    else if HasPrefix(word, "(") then ParseL(word)
    else Some(ParseC(word))
  }

  /** Printing then parsing an A-command gives it back. */
  lemma {:induction false} ParseAString(symbol: string)
    ensures Parse(ACommand(symbol).String()) == Some(ACommand(symbol))
  {
    var w := "@" + symbol;
    assert HasPrefix(w, "@") && w[1..] == symbol;
  }

  /** Printing then parsing a label with a trimmed symbol gives it back. */
  lemma {:induction false} ParseLString(symbol: string)
    requires Trimmed(symbol)
    ensures Parse(LCommand(symbol).String()) == Some(LCommand(symbol))
  {
    var w := "(" + symbol + ")";
    assert w[0] == '(' && w[..1] == "(" && w[|w| - 1] == ')';
    assert w[1..|w| - 1] == symbol;
    TrimSpaceOfTrimmed(symbol);
  }

  /**
    parseCCommand inverts CCommand.String: with no `=` in dest, no `;` in
    comp and every part trimmed, the three parts come back.
  */
  lemma {:induction false} ParseCString(dest: string, comp: string, jump: string)
    requires '=' !in dest && ';' !in comp
    requires Trimmed(dest) && Trimmed(comp) && Trimmed(jump)
    ensures ParseC(CCommand(dest, comp, jump).String()) == CCommand(dest, comp, jump)
  {
    var rest := comp + ";" + jump;
    SplitDestAt(dest, rest);
    Assoc3(dest + "=", comp, ";", jump);
    SplitJumpAt(comp, jump);
    TrimSpaceOfTrimmed(dest);
    TrimSpaceOfTrimmed(comp);
    TrimSpaceOfTrimmed(jump);
  }

  lemma {:induction false} SplitDestAt(dest: string, rest: string)
    requires '=' !in dest
    ensures SplitDest(dest + "=" + rest) == (TrimSpace(dest), rest)
  {
    var w := dest + "=" + rest;
    assert w == dest + ['='] + rest;
    IndexOfChar(dest, '=', rest);
    assert w[|dest| + 1..] == rest && w[..|dest|] == dest;
  }

  lemma {:induction false} SplitJumpAt(comp: string, jump: string)
    requires ';' !in comp
    ensures SplitJump(comp + ";" + jump) == (TrimSpace(jump), comp)
  {
    var w := comp + ";" + jump;
    assert w == comp + [';'] + jump;
    IndexOfChar(comp, ';', jump);
    assert w[|comp| + 1..] == jump && w[..|comp|] == comp;
  }

  /** The same through parse, when the printed command cannot be mistaken for an A-command or a label. */
  lemma {:induction false} ParseCommandString(dest: string, comp: string, jump: string)
    requires '=' !in dest && ';' !in comp
    requires Trimmed(dest) && Trimmed(comp) && Trimmed(jump)
    requires dest == [] || (dest[0] != '@' && dest[0] != '(')
    ensures Parse(CCommand(dest, comp, jump).String()) == Some(CCommand(dest, comp, jump))
  {
    var w := CCommand(dest, comp, jump).String();
    assert w[0] == (if dest == [] then '=' else dest[0]);
    ParseCString(dest, comp, jump);
  }

  /** Without `;` after the dest part, the jump part is empty. */
  lemma {:induction false} ParseCWithoutJump(dest: string, comp: string)
    requires '=' !in dest && ';' !in comp
    ensures ParseC(dest + "=" + comp) == CCommand(TrimSpace(dest), TrimSpace(comp), "")
  {
    SplitDestAt(dest, comp);
    IndexOfAbsent(comp, ';');
  }

  /** Without `=`, the dest part is empty and the text before the first `;` is the comp. */
  lemma {:induction false} ParseCWithoutDest(comp: string, jump: string)
    requires '=' !in comp && '=' !in jump && ';' !in comp
    ensures ParseC(comp + ";" + jump) == CCommand("", TrimSpace(comp), TrimSpace(jump))
  {
    var w := comp + ";" + jump;
    assert w == comp + [';'] + jump;
    assert '=' !in w;
    IndexOfAbsent(w, '=');
    SplitJumpAt(comp, jump);
  }

  /**
    The parser over the lines of its input. `pos` is how far the scanner has
    read; `taken` (ghost) counts the tokens made current so far.
  */
  class Parser {
    const lines: seq<string>
    var pos: nat
    var currentCommand: Option<Command>
    var eof: bool
    ghost var taken: nat

    /** The lines read so far hold exactly the tokens taken, and eof is set only once all were. */
    ghost predicate Valid()
      reads this
    {
      Scanned(lines, pos, taken) &&
      (eof ==> taken == |Tokens(lines)|)
    }

    /** NewParser: nothing read, no current command. */
    constructor (input: seq<string>)
      ensures Valid() && lines == input && pos == 0 && taken == 0 && currentCommand == None && !eof
    {
      lines := input;
      pos := 0;
      currentCommand := None;
      eof := false;
      taken := 0;
      new;
      assert lines[..0] == [];
    }

    /** HasMoreCommand: false only once an Advance found no token left. */
    function HasMoreCommand(): (b: bool)
      reads this
      requires Valid()
      ensures !b ==> taken == |Tokens(lines)|
      ensures b <==> !eof
    {
      !eof
    }

    /** The scanner's Scan: the next token, or eof set once the input is used up. */
    method Scan() returns (found: bool, token: string)
      requires Valid()
      modifies this
      ensures Valid() && currentCommand == old(currentCommand)
      ensures found <==> old(taken) < |Tokens(lines)|
      ensures found ==> taken == old(taken) + 1 && token == Tokens(lines)[old(taken)] && eof == old(eof)
      ensures !found ==> taken == old(taken) && eof
    {
      var i;
      i, found, token := ScanCommand(lines, pos);
      NextTokenInOrder(lines, pos, taken);
      if found {
        pos, taken := i, taken + 1;
      } else {
        pos, eof := i, true;
      }
    }

    /**
      Advance: the next token is parsed into the current command, an
      unparsable token being fatal (ok false); with no token left, eof is set.
    */
    method Advance() returns (ok: bool)
      requires Valid()
      modifies this
      ensures Valid()
      ensures eof <==> old(taken) == |Tokens(lines)|
      ensures old(taken) < |Tokens(lines)| ==>
        var parsed := Parse(Tokens(lines)[old(taken)]);
        taken == old(taken) + 1 && (ok <==> parsed.Some?) &&
        currentCommand == (if ok then parsed else old(currentCommand))
      ensures old(taken) == |Tokens(lines)| ==> ok && taken == old(taken) && currentCommand == old(currentCommand)
    {
      var found, token := Scan();
      if !found {
        return true;
      }
      var cmd := Parse(token);
      if cmd.Some? {
        currentCommand := cmd;
      }
      ok := cmd.Some?;
    }
  }
}
