/** Tokens of the JSON validator: the closed set of token kinds, the token
    record produced by the scanner, and the keyword table. */
module Token {

  /** The kinds of token the scanner produces. The source spells each kind as
      a string constant (see Spelling); the unused backslash kind is omitted. */
  datatype TokenKind =
    | Illegal | Eof | StringLit | NumberLit
    | Comma | Dot | Colon | LBrace | RBrace | LBracket | RBracket
    | True | False | Null

  /** One token: its kind, its literal text and the line and column of its
      first character. */
  datatype Token = Token(kind: TokenKind, literal: string, line: int, column: int)

  /** The string constant the source uses for each kind. */
  function Spelling(k: TokenKind): (s: string)
    ensures |s| >= 1
  {
    match k
    case Illegal => "ILLEGAL"
    case Eof => "EOF"
    case StringLit => "STRING_LIT"
    case NumberLit => "NUMBER_LIT"
    case Comma => ","
    case Dot => "."
    case Colon => ":"
    case LBrace => "{"
    case RBrace => "}"
    case LBracket => "["
    case RBracket => "]"
    case True => "true"
    case False => "false"
    case Null => "null"
  }

  /** Distinct kinds have distinct spellings, so comparing kinds is the same
      as comparing the source's kind strings. */
  lemma SpellingInjective(j: TokenKind, k: TokenKind)
    ensures Spelling(j) == Spelling(k) <==> j == k
  {
  }

  /** Every delimiter kind is spelled as the one character it stands for. */
  lemma DelimiterSpelling()
    ensures Spelling(LBrace) == "{" && Spelling(RBrace) == "}"
    ensures Spelling(LBracket) == "[" && Spelling(RBracket) == "]"
    ensures Spelling(Colon) == ":" && Spelling(Comma) == "," && Spelling(Dot) == "."
  {
  }

  /** The keyword table. */
  const Keywords: map<string, TokenKind> := map["true" := True, "false" := False, "null" := Null]

  /** The kind of an identifier run: its keyword kind, or Illegal. */
  function LookupIdent(ident: string): (k: TokenKind)
    ensures k in {True, False, Null, Illegal}
    ensures k == True <==> ident == "true"
    ensures k == False <==> ident == "false"
    ensures k == Null <==> ident == "null"
    ensures k != Illegal ==> Spelling(k) == ident
  {
    if ident in Keywords then Keywords[ident] else Illegal
  }
}
