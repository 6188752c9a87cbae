/**
  The Jack tokenizer (compiler/tokenizer.go): a character scanner over the
  source text with one character of lookahead in `ch` and a line counter.
  The pure functions describe what one NextToken call reads; the class is the
  scanner itself, each method proved to follow them.
*/
module JackTokenizer {
  import opened Common
  import opened Text
  import opened JackToken

  /** The value `ch` holds once the input is exhausted. */
  const EOF: int := -1

  /** The current rune: the character at offset i, or EOF past the end. */
  function RuneAt(src: string, i: nat): int {
    if i < |src| then src[i] as int else EOF
  }

  predicate IsDigitRune(r: int) {
    '0' as int <= r <= '9' as int
  }

  /** isLetter: ASCII letters, underscore and digits. */
  predicate IsLetterRune(r: int) {
    ('a' as int <= r <= 'z' as int) || ('A' as int <= r <= 'Z' as int) || r == '_' as int || IsDigitRune(r)
  }

  predicate IsSpaceRune(r: int) {
    r == ' ' as int || r == '\t' as int || r == '\n' as int || r == '\r' as int || r == 0x0B || r == 0x0C
  }

  /** The 19 one-character symbols. */
  predicate IsSymbolChar(c: char) {
    c in "{}()[].,;+-*/&|<>=~"
  }

  // ---------------------------------------------------------------------------
  // Line numbers

  function Newlines(s: string): nat {
    if s == [] then 0 else Newlines(s[..|s| - 1]) + (if s[|s| - 1] == '\n' then 1 else 0)
  }

  /**
    The characters whose newlines have been counted when the scanner is at
    offset o: every character before o, except that reaching the end of input
    does not count the last character.
  */
  function Counted(src: string, o: nat): nat {
    if o < |src| then o else if |src| == 0 then 0 else |src| - 1
  }

  /** The line number the scanner reports at offset o. */
  function LineAt(src: string, o: nat): nat
    requires o <= |src|
  {
    1 + Newlines(src[..Counted(src, o)])
  }

  /** One step of readRune: the line number goes up exactly when a '\n' in ch is replaced by a further character. */
  lemma {:induction false} LineAtStep(src: string, o: nat)
    requires o < |src|
    ensures LineAt(src, o + 1) == LineAt(src, o) + (if o + 1 < |src| && src[o] == '\n' then 1 else 0)
  {
    if o + 1 < |src| {
      assert src[..o + 1][..o] == src[..o];
    }
  }

  // ---------------------------------------------------------------------------
  // What one NextToken call reads, as functions of the text and the offset

  /** skipWhiteSpaces: the first offset at or after i that does not hold white space. */
  function SkipSpaces(src: string, i: nat): (j: nat)
    requires i <= |src|
    decreases |src| - i
    ensures i <= j <= |src|
    ensures forall k :: i <= k < j ==> IsSpace(src[k])
    ensures j < |src| ==> !IsSpace(src[j])
  {
    if i < |src| && IsSpace(src[i]) then SkipSpaces(src, i + 1) else i
  }

  /** readInt: the end of the run of digits that starts at i. */
  function DigitsEnd(src: string, i: nat): (j: nat)
    requires i <= |src|
    decreases |src| - i
    ensures i <= j <= |src|
    ensures forall k :: i <= k < j ==> IsDigit(src[k])
    ensures j < |src| ==> !IsDigit(src[j])
  {
    if i < |src| && IsDigit(src[i]) then DigitsEnd(src, i + 1) else i
  }

  /** readIdentifier: the end of the longest run of letters, '_' and digits that starts at i. */
  function LettersEnd(src: string, i: nat): (j: nat)
    requires i <= |src|
    decreases |src| - i
    ensures i <= j <= |src|
    ensures forall k :: i <= k < j ==> IsLetterRune(src[k] as int)
    ensures j < |src| ==> !IsLetterRune(src[j] as int)
  {
    if i < |src| && IsLetterRune(src[i] as int) then LettersEnd(src, i + 1) else i
  }

  /** readString: the offset of the first '"' at or after i, if there is one. */
  function QuoteFrom(src: string, i: nat): (r: Option<nat>)
    requires i <= |src|
    decreases |src| - i
    ensures r.Some? ==> i <= r.value < |src| && src[r.value] == '"'
    ensures r.Some? ==> forall k :: i <= k < r.value ==> src[k] != '"'
    ensures r.None? ==> forall k :: i <= k < |src| ==> src[k] != '"'
  {
    if i == |src| then None else if src[i] == '"' then Some(i) else QuoteFrom(src, i + 1)
  }

  /** The token one NextToken call returns from offset i, with the offset it leaves; None for an unterminated string. */
  function Scan(src: string, i: nat): Option<(Token, nat)>
    requires i <= |src|
  {
    var j := SkipSpaces(src, i);
    if j == |src| then Some((Token(TokenEOF, ""), j))
    else if IsSymbolChar(src[j]) then Some((Token(TokenSymbol, [src[j]]), j + 1))
    else if src[j] == '"' then
      match QuoteFrom(src, j + 1)
      case None => None
      case Some(k) => Some((Token(TokenString, src[j + 1..k]), k + 1))
    else
      var d := if IsDigit(src[j]) then DigitsEnd(src, j) else j;
      var e := LettersEnd(src, d);
      var ident := src[d..e];
      Some((Token(if IsKeyword(ident) then TokenKeyword else TokenIdentifier, ident), e))
  }

  /** At end of input every further call returns EOF with an empty literal and stays put. */
  lemma {:induction false} ScanAtEnd(src: string, i: nat)
    requires i <= |src| && SkipSpaces(src, i) == |src|
    ensures Scan(src, i) == Some((Token(TokenEOF, ""), |src|))
    ensures Scan(src, |src|) == Some((Token(TokenEOF, ""), |src|))
  {
  }

  /** A symbol character gives a Symbol token of exactly that character and consumes just it. */
  lemma {:induction false} ScanSymbol(src: string, i: nat)
    requires i <= |src|
    requires SkipSpaces(src, i) < |src| && IsSymbolChar(src[SkipSpaces(src, i)])
    ensures Scan(src, i) == Some((Token(TokenSymbol, [src[SkipSpaces(src, i)]]), SkipSpaces(src, i) + 1))
  {
  }

  /** A string token holds the text strictly between the quotes, which has no '"' in it; both quotes are consumed. */
  lemma {:induction false} ScanString(src: string, i: nat)
    requires i <= |src|
    requires SkipSpaces(src, i) < |src| && src[SkipSpaces(src, i)] == '"'
    ensures Scan(src, i).Some? <==> '"' in src[SkipSpaces(src, i) + 1..]
    ensures Scan(src, i).Some? ==>
      var (tok, next) := Scan(src, i).value;
      var j := SkipSpaces(src, i);
      tok.kind == TokenString && '"' !in tok.literal &&
      next == j + |tok.literal| + 2 && src[j + 1..next - 1] == tok.literal && src[next - 1] == '"'
  {
    var j := SkipSpaces(src, i);
    assert !IsSymbolChar('"');
    match QuoteFrom(src, j + 1)
    case None =>
      var rest := src[j + 1..];
      assert '"' !in rest by {
        forall k | 0 <= k < |rest| ensures rest[k] != '"' {
          assert rest[k] == src[j + 1 + k];
        }
      }
    case Some(q) =>
      assert src[j + 1..][q - j - 1] == '"';
      var lit := src[j + 1..q];
      assert '"' !in lit by {
        forall k | 0 <= k < |lit| ensures lit[k] != '"' {
          assert lit[k] == src[j + 1 + k];
        }
      }
  }

  /**
    A character that is neither white space, a symbol, a quote nor a letter
    (such as '!') gives an Identifier with an empty literal and the offset
    does not move past it.
  */
  lemma {:induction false} ScanStuck(src: string, i: nat)
    requires i <= |src|
    requires SkipSpaces(src, i) < |src|
    requires var c := src[SkipSpaces(src, i)]; !IsSymbolChar(c) && c != '"' && !IsLetterRune(c as int)
    ensures Scan(src, i) == Some((Token(TokenIdentifier, ""), SkipSpaces(src, i)))
  {
    var j := SkipSpaces(src, i);
    assert !IsDigit(src[j]);
    assert LettersEnd(src, j) == j;
    assert src[j..j] == "";
    assert !IsKeyword("") by { assert "" !in Keywords; }
  }

  /**
    A digit-led token is never an integer: its digits are dropped and the
    token is the letter run after them, a Keyword exactly when that run is one.
  */
  lemma {:induction false} ScanDigitLed(src: string, i: nat)
    requires i <= |src|
    requires SkipSpaces(src, i) < |src| && IsDigit(src[SkipSpaces(src, i)])
    ensures Scan(src, i).Some?
    ensures
      var (tok, next) := Scan(src, i).value;
      var d := DigitsEnd(src, SkipSpaces(src, i));
      tok.kind != TokenInt && tok.literal == src[d..next] && next == LettersEnd(src, d) &&
      (tok.kind == TokenKeyword <==> IsKeyword(tok.literal)) &&
      (tok.literal == [] || !IsDigit(tok.literal[0]))
  {
    var j := SkipSpaces(src, i);
    assert !IsSymbolChar(src[j]) && src[j] != '"';
  }

  /** A letter-led token is the longest run of letters, '_' and digits, a Keyword iff IsKeyword holds. */
  lemma {:induction false} ScanWord(src: string, i: nat)
    requires i <= |src|
    requires var j := SkipSpaces(src, i); j < |src| && IsLetterRune(src[j] as int) && !IsDigit(src[j])
    ensures Scan(src, i).Some?
    ensures
      var (tok, next) := Scan(src, i).value;
      var j := SkipSpaces(src, i);
      j < next && tok.literal == src[j..next] &&
      (forall k :: 0 <= k < |tok.literal| ==> IsLetterRune(tok.literal[k] as int)) &&
      (next < |src| ==> !IsLetterRune(src[next] as int)) &&
      (tok.kind == TokenKeyword <==> IsKeyword(tok.literal)) &&
      (tok.kind == TokenIdentifier <==> !IsKeyword(tok.literal))
  {
    var j := SkipSpaces(src, i);
    assert !IsSymbolChar(src[j]) && src[j] != '"';
    var e := LettersEnd(src, j);
    forall k | 0 <= k < e - j ensures IsLetterRune(src[j..e][k] as int) {
      assert src[j..e][k] == src[j + k];
    }
  }

  // ---------------------------------------------------------------------------
  // The scanner

  class Tokenizer {
    const src: string
    var ch: int
    var offset: nat
    var rdOffset: nat
    var lineNum: nat

    ghost predicate Valid()
      reads this
    {
      offset <= |src| && rdOffset == offset + 1 && ch == RuneAt(src, offset) && lineNum == LineAt(src, offset)
    }

    /** NewTokenizer: line 1, with the first character already read into ch. */
    constructor (input: string)
      ensures Valid() && src == input && offset == 0 && lineNum == 1
    {
      src := input;
      ch := RuneAt(input, 0);
      offset := 0;
      rdOffset := 1;
      lineNum := 1;
    }

    function CurrentLineNum(): (n: nat)
      reads this
      requires Valid()
      ensures n == LineAt(src, offset) && n >= 1
    {
      lineNum
    }

    /** readRune: move to the next character, counting the newline being left behind. */
    method ReadRune()
      requires Valid() && offset < |src|
      modifies this
      ensures Valid() && offset == old(offset) + 1
      ensures lineNum == old(lineNum) + (if offset < |src| && old(ch) == '\n' as int then 1 else 0)
    {
      LineAtStep(src, offset);
      if rdOffset < |src| {
        if ch == '\n' as int {
          lineNum := lineNum + 1;
        }
        ch := src[rdOffset] as int;
      } else {
        ch := EOF;
      }
      offset := rdOffset;
      rdOffset := rdOffset + 1;
    }

    method SkipWhiteSpaces()
      requires Valid()
      modifies this
      ensures Valid() && offset == SkipSpaces(src, old(offset))
    {
      while IsSpaceRune(ch)
        invariant Valid() && old(offset) <= offset
        invariant SkipSpaces(src, old(offset)) == SkipSpaces(src, offset)
        decreases |src| - offset
      {
        ReadRune();
      }
    }

    method ReadInt() returns (s: string)
      requires Valid()
      modifies this
      ensures Valid() && offset == DigitsEnd(src, old(offset))
      ensures s == src[old(offset)..offset]
    {
      var begin := offset;
      while IsDigitRune(ch)
        invariant Valid() && begin <= offset
        invariant DigitsEnd(src, begin) == DigitsEnd(src, offset)
        decreases |src| - offset
      {
        ReadRune();
      }
      s := src[begin..offset];
    }

    method ReadIdentifier() returns (s: string)
      requires Valid()
      modifies this
      ensures Valid() && offset == LettersEnd(src, old(offset))
      ensures s == src[old(offset)..offset]
    {
      var begin := offset;
      while IsLetterRune(ch)
        invariant Valid() && begin <= offset
        invariant LettersEnd(src, begin) == LettersEnd(src, offset)
        decreases |src| - offset
      {
        ReadRune();
      }
      s := src[begin..offset];
    }

    /**
      readString, called with ch == '"'. tokenizer.go loops forever on an
      unterminated string; here that case returns ok == false.
    */
    method ReadString() returns (ok: bool, s: string)
      requires Valid() && offset < |src| && src[offset] == '"'
      modifies this
      ensures Valid()
      ensures ok <==> QuoteFrom(src, old(offset) + 1).Some?
      ensures ok ==> s == src[old(offset) + 1..QuoteFrom(src, old(offset) + 1).value]
      ensures ok ==> offset == QuoteFrom(src, old(offset) + 1).value + 1
    {
      ReadRune();
      var begin := offset;
      while ch != '"' as int
        invariant Valid() && begin <= offset
        invariant QuoteFrom(src, begin) == QuoteFrom(src, offset)
        decreases |src| - offset
      {
        if ch == EOF {
          return false, "";
        }
        ReadRune();
      }
      var end := offset;
      s := src[begin..end];
      ReadRune();
      ok := true;
    }

    /** NextToken: skip white space, then read one token as Scan describes. */
    method NextToken() returns (ok: bool, tok: Token)
      requires Valid()
      modifies this
      ensures Valid()
      ensures ok <==> Scan(src, old(offset)).Some?
      ensures ok ==> (tok, offset) == Scan(src, old(offset)).value
    {
      SkipWhiteSpaces();
      if ch == EOF {
        return true, Token(TokenEOF, "");
      }
      var c := src[offset];
      if IsSymbolChar(c) {
        tok := Token(TokenSymbol, [c]);
        ReadRune();
        return true, tok;
      }
      if c == '"' {
        var s;
        ok, s := ReadString();
        return ok, Token(TokenString, s);
      }
      tok := Token(TokenEOF, "");
      if IsDigitRune(ch) {
        var digits := ReadInt();
        tok := Token(TokenInt, digits);
      }
      var ident := ReadIdentifier();
      if IsKeyword(ident) {
        tok := Token(TokenKeyword, ident);
      } else {
        tok := Token(TokenIdentifier, ident);
      }
      ok := true;
    }
  }
}
