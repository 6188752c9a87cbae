/**
  The Jack tokenizer's token kinds and keyword table (compiler/token.go).
*/
module JackToken {

  /** The six token kinds the tokenizer produces. */
  datatype TokenKind = TokenEOF | TokenKeyword | TokenSymbol | TokenIdentifier | TokenInt | TokenString

  datatype Token = Token(kind: TokenKind, literal: string)

  /** The 21 keyword constants, in declaration order. */
  datatype Keyword =
    | KwClass | KwThis
    | KwMethod | KwFunction | KwConstructor
    | KwInt | KwBoolean | KwChar | KwVoid
    | KwVar | KwStatic | KwField
    | KwLet | KwDo | KwIf | KwElse | KwWhile | KwReturn
    | KwTrue | KwFalse | KwNull

  /** The keyword table, as written: the constructor keyword is spelled "constractor". */
  const Keywords: map<string, Keyword> := map[
    "class" := KwClass,
    "this" := KwThis,
    "method" := KwMethod,
    "function" := KwFunction,
    "constractor" := KwConstructor,
    "int" := KwInt,
    "boolean" := KwBoolean,
    "char" := KwChar,
    "void" := KwVoid,
    "var" := KwVar,
    "static" := KwStatic,
    "field" := KwField,
    "let" := KwLet,
    "do" := KwDo,
    "if" := KwIf,
    "else" := KwElse,
    "while" := KwWhile,
    "return" := KwReturn,
    "true" := KwTrue,
    "false" := KwFalse,
    "null" := KwNull
  ]

  /** Independent listing of each constant's spelling, one case per constant. */
  function Spelling(k: Keyword): string {
    match k
    case KwClass => "class"
    case KwThis => "this"
    case KwMethod => "method"
    case KwFunction => "function"
    case KwConstructor => "constractor"
    case KwInt => "int"
    case KwBoolean => "boolean"
    case KwChar => "char"
    case KwVoid => "void"
    case KwVar => "var"
    case KwStatic => "static"
    case KwField => "field"
    case KwLet => "let"
    case KwDo => "do"
    case KwIf => "if"
    case KwElse => "else"
    case KwWhile => "while"
    case KwReturn => "return"
    case KwTrue => "true"
    case KwFalse => "false"
    case KwNull => "null"
  }

  /**
    LookupKeyword: a Go map read, so a miss yields the zero Keyword (KwClass)
    together with found == false.
  */
  function LookupKeyword(ident: string): (r: (Keyword, bool))
    ensures r.1 ==> Spelling(r.0) == ident
    ensures !r.1 ==> r.0 == KwClass
    ensures !r.1 <==> forall k: Keyword :: Spelling(k) != ident
  {
    if ident in Keywords then
      var k := Keywords[ident];
      assert Spelling(k) == ident;
      (k, true)
    else
      assert forall k: Keyword :: Spelling(k) in Keywords;
      (KwClass, false)
  }

  /** IsKeyword agrees with the found flag of LookupKeyword. */
  predicate IsKeyword(ident: string)
    ensures IsKeyword(ident) == LookupKeyword(ident).1
  {
    ident in Keywords
  }

  /** Every constant is found under its spelling: the table is onto the 21 constants. */
  lemma {:induction false} LookupSpelling(k: Keyword)
    ensures LookupKeyword(Spelling(k)) == (k, true)
  {
  }

  /** Different constants have different spellings, so the table is one-to-one. */
  lemma {:induction false} SpellingInjective(a: Keyword, b: Keyword)
    requires Spelling(a) == Spelling(b)
    ensures a == b
  {
  }

  /** "constructor" is not a keyword; the misspelling is. */
  lemma {:induction false} ConstructorMisspelled()
    ensures !IsKeyword("constructor")
    ensures LookupKeyword("constractor") == (KwConstructor, true)
  {
  }
}
