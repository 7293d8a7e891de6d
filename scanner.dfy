/** A functional specification of the scanner of internal/lexer/lexer.go.
    The scanner's state is a Cursor over the input runes; Lex is one call of
    NextToken on that state. The class Lexer.Lexer is proved to follow it. */
module Scanner {
  import opened Options
  import opened Token

  /** The rune the source reports at and past the end of the input. */
  const NUL: char := '\0'

  /** The rune readRune or peekRune sees at index i: NUL past the end. */
  function At(runes: seq<char>, i: nat): (r: char)
    ensures i < |runes| ==> r == runes[i]
    ensures i >= |runes| ==> r == NUL
  {
    if i < |runes| then runes[i] else NUL
  }

  predicate IsLetter(r: char) {
    'a' <= r <= 'z' || 'A' <= r <= 'Z' || r == '_'
  }

  predicate IsDigit(r: char) {
    '0' <= r <= '9'
  }

  predicate IsHexDigit(r: char) {
    '0' <= r <= '9' || 'a' <= r <= 'f' || 'A' <= r <= 'F'
  }

  predicate IsLetterOrDigit(r: char) {
    IsDigit(r) || IsLetter(r)
  }

  /** Space or tab: advances the column. */
  predicate IsWhitespace(r: char) {
    r == ' ' || r == '\t'
  }

  /** Carriage return or line feed: each one starts a new line. */
  predicate IsNewLine(r: char) {
    r == '\r' || r == '\n'
  }

  predicate IsBlank(r: char) {
    IsWhitespace(r) || IsNewLine(r)
  }

  /** The characters that, after a backslash, are skipped together with it. */
  predicate IsSimpleEscape(r: char) {
    r == '"' || r == '\\' || r == '/' || r == 'b' || r == 'f' || r == 'n' || r == 'r'
  }

  /** A string literal ends at a quote or at NUL (the end of the input). */
  predicate Terminates(r: char) {
    r == '"' || r == NUL
  }

  /** The scanner state: the index of the current rune, the index of the next
      read, and the line and column the next token would carry. */
  datatype Cursor = Cursor(position: nat, readPosition: nat, line: int, column: int)

  predicate Primed(c: Cursor) {
    c.readPosition == c.position + 1
  }

  /** The next read is one past the current rune, except on an empty input
      before anything was read (NewLexer reads only non-empty input). */
  predicate Coherent(runes: seq<char>, c: Cursor) {
    Primed(c) || (|runes| == 0 && c.position == 0 && c.readPosition == 0)
  }

  /** The state NewLexer builds: line 1, column 0, and the first rune read
      when there is one. */
  function Initial(runes: seq<char>): (c: Cursor)
    ensures Coherent(runes, c) && c.position == 0 && c.line == 1 && c.column == 0
    ensures Primed(c) <==> |runes| > 0
  {
    if |runes| == 0 then Cursor(0, 0, 1, 0) else Cursor(0, 1, 1, 0)
  }

  /** readRune: the next read becomes the current rune. */
  function ReadRune(c: Cursor): (d: Cursor)
    ensures Primed(d) && d.position == c.readPosition
    ensures d.line == c.line && d.column == c.column
  {
    c.(position := c.readPosition, readPosition := c.readPosition + 1)
  }

  /** skipWhitespace: skips blanks, counting lines and columns. */
  function SkipBlanks(runes: seq<char>, c: Cursor): (s: Cursor)
    requires Coherent(runes, c)
    ensures Coherent(runes, s) && (Primed(c) ==> Primed(s))
    ensures c.position <= s.position && !IsBlank(At(runes, s.position))
    ensures s.position > c.position ==> s.position <= |runes|
    ensures forall i | c.position <= i < s.position :: i < |runes| && IsBlank(runes[i])
    ensures s.line >= c.line && (c.column >= 0 ==> s.column >= 0)
    decreases |runes| - c.position
  {
    var r := At(runes, c.position);
    if IsNewLine(r) then SkipBlanks(runes, ReadRune(c).(line := c.line + 1, column := 0))
    else if IsWhitespace(r) then SkipBlanks(runes, ReadRune(c).(column := c.column + 1))
    else c
  }

  /** The end of a run of letters and digits starting at i. */
  function WordEnd(runes: seq<char>, i: nat): (j: nat)
    ensures i <= j && !IsLetterOrDigit(At(runes, j))
    ensures i <= |runes| ==> j <= |runes|
    ensures forall k | i <= k < j :: k < |runes| && IsLetterOrDigit(runes[k])
    decreases |runes| - i
  {
    if IsLetterOrDigit(At(runes, i)) then WordEnd(runes, i + 1) else i
  }

  /** readIdentifier from a letter at p: the index just past the run. */
  function IdentEnd(runes: seq<char>, p: nat): (j: nat)
    requires IsLetter(At(runes, p))
    ensures p < j <= |runes|
  {
    WordEnd(runes, p + 1)
  }

  /** The end of a run of decimal digits starting at i. */
  function DigitsEnd(runes: seq<char>, i: nat): (j: nat)
    ensures i <= j && !IsDigit(At(runes, j))
    ensures i <= |runes| ==> j <= |runes|
    ensures forall k | i <= k < j :: k < |runes| && IsDigit(runes[k])
    decreases |runes| - i
  {
    if IsDigit(At(runes, i)) then DigitsEnd(runes, i + 1) else i
  }

  /** Index just past an optional character c at i. */
  function Optional(runes: seq<char>, i: nat, c: char): nat {
    if At(runes, i) == c then i + 1 else i
  }

  /** readNumber from a digit or '-' at p: an optional '-', digits, an
      optional '.', digits, then optionally 'e' or 'E', an optional sign and
      digits. */
  function NumberEnd(runes: seq<char>, p: nat): (j: nat)
    requires IsDigit(At(runes, p)) || At(runes, p) == '-'
    ensures p < j <= |runes|
  {
    ExponentEnd(runes, MantissaEnd(runes, p))
  }

  /** The sign, integer digits, point and fraction digits of a number at p. */
  function MantissaEnd(runes: seq<char>, p: nat): (m: nat)
    requires IsDigit(At(runes, p)) || At(runes, p) == '-'
    ensures p < m <= |runes|
  {
    DigitsEnd(runes, Optional(runes, DigitsEnd(runes, Optional(runes, p, '-')), '.'))
  }

  /** The exponent of a number whose mantissa ends at m: 'e' or 'E', an
      optional sign and digits, or nothing. */
  function ExponentEnd(runes: seq<char>, m: nat): (j: nat)
    requires m <= |runes|
    ensures m <= j <= |runes|
  {
    if At(runes, m) == 'e' || At(runes, m) == 'E' then
      DigitsEnd(runes, if At(runes, m + 1) == '-' || At(runes, m + 1) == '+' then m + 2 else m + 1)
    else
      m
  }

  /** peekRuneN(k) with the next read at rp: the source guards only rp, so
      it indexes rp + k, which must then be in range. */
  predicate PeekNInRange(n: nat, rp: nat, k: nat) {
    rp >= n || rp + k < n
  }

  /** A backslash at i followed by 'u' reads four times and calls
      peekRuneN(k) before the k-th read, when the next read is at i + 1 + k. */
  predicate UnicodePeekInRange(n: nat, i: nat, k: nat) {
    PeekNInRange(n, i + 1 + k, k)
  }

  predicate UnicodePeeksInRange(n: nat, i: nat) {
    UnicodePeekInRange(n, i, 0) && UnicodePeekInRange(n, i, 1) &&
    UnicodePeekInRange(n, i, 2) && UnicodePeekInRange(n, i, 3)
  }

  /** The loop of readString, entered right after reading index i: the index
      of the terminating rune, or None when peekRuneN indexes out of range. */
  function StringScan(runes: seq<char>, i: nat): (r: Option<nat>)
    requires i <= |runes|
    ensures r.Some? ==> i <= r.value && Terminates(At(runes, r.value))
    decreases |runes| - i
  {
    var ch := At(runes, i);
    if ch == '\\' && IsSimpleEscape(At(runes, i + 1)) then
      StringScan(runes, i + 2)
    else if ch == '\\' && At(runes, i + 1) == 'u' then
      if !UnicodePeeksInRange(|runes|, i) then None
      else if Terminates(At(runes, i + 4)) then Some(i + 4)
      else StringScan(runes, i + 5)
    else if Terminates(ch) then
      Some(i)
    else
      StringScan(runes, i + 1)
  }

  /** readString from the opening quote at p: the index of the terminating
      rune, or None when the scan or the final slice runes[p+1..q] goes out
      of range. */
  function StringEnd(runes: seq<char>, p: nat): (r: Option<nat>)
    requires p < |runes|
    ensures r.Some? ==> p < r.value <= |runes| && Terminates(At(runes, r.value))
  {
    match StringScan(runes, p + 1)
    case None => None
    case Some(q) => if q <= |runes| then Some(q) else None
  }

  /** Number of bytes of the UTF-8 encoding of one rune. */
  function RuneLength(r: char): (b: nat)
    ensures 1 <= b <= 4
    ensures (r as int < 0x80) <==> b == 1
  {
    if r as int < 0x80 then 1
    else if r as int < 0x800 then 2
    else if r as int < 0x10000 then 3
    else 4
  }

  /** Go's len of a string: the number of bytes of its UTF-8 encoding. */
  function Utf8Length(s: string): (b: nat)
    ensures |s| <= b <= 4 * |s|
  {
    if s == [] then 0 else RuneLength(s[0]) + Utf8Length(s[1..])
  }

  /** The outcome of one NextToken call: the token and the new state, or an
      index out of range (a run-time panic of the source). */
  datatype Step = Step(token: Token, next: Cursor) | OutOfRange

  /** How far NextToken moves the column past a token's first character:
      1 for EOF, the UTF-8 length of the literal plus the two quotes for a
      string, and the literal's length otherwise (a delimiter or an ILLEGAL
      rune is one character long). */
  function ColumnAdvance(t: Token): int {
    if t.kind == Eof then 1
    else if t.kind == StringLit then Utf8Length(t.literal) + 2
    else |t.literal|
  }

  /** What every token scanned at s satisfies: it carries the line and
      column of s; the next state is on the same line, ColumnAdvance columns
      further, with the first rune after the token read; the position moves
      forward; a non-EOF token starts inside the input and ends at most one
      past its end; an EOF token ends where the next read was. */
  predicate Placed(runes: seq<char>, s: Cursor, r: Step) {
    r.Step? &&
    r.token.line == s.line && r.token.column == s.column &&
    r.next.line == s.line && r.next.column == s.column + ColumnAdvance(r.token) &&
    Primed(r.next) &&
    (Primed(s) ==> s.position < r.next.position) &&
    (r.token.kind == Eof ==> r.next.position == s.readPosition) &&
    (r.token.kind != Eof ==> s.position < |runes| && r.next.position <= |runes| + 1)
  }

  /** A one-rune token (or EOF): the current rune is consumed and the
      column advances by 1. */
  function Single(s: Cursor, k: TokenKind, literal: string): (r: Step)
    ensures r.Step? && r.token == Token(k, literal, s.line, s.column)
    ensures r.next == Cursor(s.readPosition, s.readPosition + 1, s.line, s.column + 1)
  {
    Step(Token(k, literal, s.line, s.column), ReadRune(s).(column := s.column + 1))
  }

  /** readString at an opening quote, then the read after the closing one. */
  function ScanString(runes: seq<char>, s: Cursor): (r: Step)
    requires Primed(s) && s.position < |runes| && runes[s.position] == '"'
    ensures r.Step? <==> StringEnd(runes, s.position).Some?
    ensures r.Step? ==> Placed(runes, s, r) && r.token.kind == StringLit
    ensures r.Step? ==> r.token.literal == runes[s.position + 1..StringEnd(runes, s.position).value]
  {
    match StringEnd(runes, s.position)
    case None => OutOfRange
    case Some(q) =>
      var literal := runes[s.position + 1..q];
      Step(Token(StringLit, literal, s.line, s.column),
           Cursor(q + 1, q + 2, s.line, s.column + Utf8Length(literal) + 2))
  }

  /** readIdentifier at a letter, its kind from the keyword table. */
  function ScanIdentifier(runes: seq<char>, s: Cursor): (r: Step)
    requires Primed(s) && IsLetter(At(runes, s.position))
    ensures Placed(runes, s, r) && r.token.kind == LookupIdent(r.token.literal)
    ensures r.token.literal == runes[s.position..IdentEnd(runes, s.position)]
  {
    var e := IdentEnd(runes, s.position);
    var literal := runes[s.position..e];
    Step(Token(LookupIdent(literal), literal, s.line, s.column),
         Cursor(e, e + 1, s.line, s.column + |literal|))
  }

  /** readNumber at a digit or '-'. */
  function ScanNumber(runes: seq<char>, s: Cursor): (r: Step)
    requires Primed(s) && (IsDigit(At(runes, s.position)) || At(runes, s.position) == '-')
    ensures Placed(runes, s, r) && r.token.kind == NumberLit
    ensures r.token.literal == runes[s.position..NumberEnd(runes, s.position)]
  {
    var e := NumberEnd(runes, s.position);
    var literal := runes[s.position..e];
    Step(Token(NumberLit, literal, s.line, s.column),
         Cursor(e, e + 1, s.line, s.column + |literal|))
  }

  /** The switch of NextToken on the current rune, in the source's order. */
  function ScanAt(runes: seq<char>, s: Cursor): (r: Step)
    requires Coherent(runes, s)
    ensures r.Step? ==> Placed(runes, s, r)
    ensures r.Step? ==> (r.token.kind == Eof <==> At(runes, s.position) == NUL)
  {
    var ch := At(runes, s.position);
    if ch == ':' then Single(s, Colon, [ch])
    else if ch == ',' then Single(s, Comma, [ch])
    else if ch == '.' then Single(s, Dot, [ch])
    else if ch == '{' then Single(s, LBrace, [ch])
    else if ch == '}' then Single(s, RBrace, [ch])
    else if ch == '"' then ScanString(runes, s)
    else if ch == '[' then Single(s, LBracket, [ch])
    else if ch == ']' then Single(s, RBracket, [ch])
    else if ch == NUL then Single(s, Eof, "EOF")
    else if IsLetter(ch) then ScanIdentifier(runes, s)
    else if IsDigit(ch) || ch == '-' then ScanNumber(runes, s)
    else Single(s, Illegal, [ch])
  }

  /** NextToken: skip blanks, then scan one token at the current rune. */
  function Lex(runes: seq<char>, c: Cursor): (r: Step)
    requires Coherent(runes, c)
    ensures r.Step? ==> Placed(runes, SkipBlanks(runes, c), r)
    ensures r.Step? ==> (r.token.kind == Eof <==> At(runes, SkipBlanks(runes, c).position) == NUL)
  {
    ScanAt(runes, SkipBlanks(runes, c))
  }
}
