/** A functional specification of the recursive descent that both
    internal/json-parser/parser.go and internal/parser/parser.go implement.
    The two files differ only in their error messages, so the grammar is
    parameterised by a Messages record. The parser state is the current
    token, the peeked token and the scanner state after the peek; every
    advance pulls one token from the scanner (Lex), which may itself fail
    (an out-of-range index in the source, Crashed here). */
module Grammar {
  import opened Options
  import opened Token
  import opened Scanner
  import ScannerFacts

  /** The error messages of one parser. The two closing-delimiter messages
      belong to branches that can never be taken (see Members and
      Elements). */
  datatype Messages = Messages(
    leftBrace: string, rightBrace: string, stringLiteral: string, colon: string,
    value: string, leftBracket: string, rightBracket: string)

  /** The messages of internal/json-parser/parser.go. */
  const Current: Messages := Messages(
    "Expected left brace - {", "Expected right brace - }", "Expected string literal",
    "Expected a colon - :", "Unknown value", "Expected left bracket - [",
    "Expected right bracket - ]")

  /** The messages of internal/parser/parser.go. */
  const Legacy: Messages := Messages(
    "expected {", "expected }", "expected string literal", "expected :",
    "expected value", "expected [", "expected ]")

  /** curToken, peekToken and the scanner state after the peek. */
  datatype PState = PState(cur: Token, peek: Token, lex: Cursor)

  /** The outcome of one parse function: accepted with the state after it,
      rejected with the message recorded and the state whose current token
      the error carries, or crashed because the scanner failed. */
  datatype Parsed = Accepted(after: PState) | Rejected(message: string, at: PState) | Crashed

  /** What the parser state keeps: the scanner has read past the peeked
      token, and the position is bounded by how many EOF tokens can have
      been pulled. The parser only advances past a non-EOF current token. */
  predicate Sane(runes: seq<char>, ps: PState) {
    Primed(ps.lex) && ps.lex.position <= |runes| + 3 &&
    (ps.cur.kind != Eof ==> ps.lex.position <= |runes| + 2) &&
    (ps.peek.kind != Eof ==> ps.lex.position <= |runes| + 1)
  }

  /** The termination measure: how far the scanner can still move. */
  function Fuel(runes: seq<char>, ps: PState): nat
    requires Sane(runes, ps)
  {
    |runes| + 3 - ps.lex.position
  }

  /** nextToken: the peeked token becomes current and one new token is
      pulled from the scanner. */
  function Advance(runes: seq<char>, ps: PState): (r: Option<PState>)
    requires Coherent(runes, ps.lex)
    ensures r.Some? <==> Lex(runes, ps.lex).Step?
    ensures r.Some? ==> Primed(r.value.lex)
    ensures r.Some? ==> r.value.cur == ps.peek && r.value.peek == Lex(runes, ps.lex).token
    ensures r.Some? && Sane(runes, ps) && ps.cur.kind != Eof ==>
              Sane(runes, r.value) && Fuel(runes, r.value) < Fuel(runes, ps)
  {
    match Lex(runes, ps.lex)
    case OutOfRange => None
    case Step(t, next) =>
      ScannerFacts.LexAdvances(runes, ps.lex);
      Some(PState(ps.peek, t, next))
  }

  /** NewParser: two nextToken calls on a fresh scanner, so the current and
      peeked tokens are the scanner's first two (StartTwice); it fails when
      scanning either of them does. */
  function Start(runes: seq<char>): Option<PState> {
    StartAt(runes, Initial(runes))
  }

  /** The state after construction satisfies Sane. */
  lemma StartSane(runes: seq<char>)
    ensures Start(runes).Some? ==> Sane(runes, Start(runes).value)
  {
  }

  /** The construction in the parser's own terms: two nextToken calls from
      whatever tokens the fields held, so the first two tokens scanned from
      c0 become the current and the peeked token. */
  lemma StartTwice(runes: seq<char>, c0: Cursor, before: Token, unset: Token)
    requires Coherent(runes, c0) && c0.position == 0
    ensures StartAt(runes, c0) ==
            match Advance(runes, PState(before, unset, c0))
            case None => None
            case Some(p) => Advance(runes, p)
    ensures StartAt(runes, c0).Some? ==>
              StartAt(runes, c0).value.cur == Lex(runes, c0).token &&
              StartAt(runes, c0).value.peek == Lex(runes, Lex(runes, c0).next).token
  {
  }

  /** Two nextToken calls from scanner state c0 at the start of the input. */
  function StartAt(runes: seq<char>, c0: Cursor): (r: Option<PState>)
    requires Coherent(runes, c0) && c0.position == 0
    ensures r.Some? ==> Sane(runes, r.value)
  {
    match Lex(runes, c0)
    case OutOfRange => None
    case Step(t1, c1) =>
      ScannerFacts.LexAdvances(runes, c0);
      match Lex(runes, c1)
      case OutOfRange => None
      case Step(t2, c2) =>
        ScannerFacts.LexAdvances(runes, c1);
        Some(PState(t1, t2, c2))
  }

  /** The kinds parseValue accepts by consuming one token. */
  predicate IsScalar(k: TokenKind) {
    k == StringLit || k == NumberLit || k == True || k == False || k == Null
  }

  /** The kinds parseValue accepts at all. */
  predicate IsValueStart(k: TokenKind) {
    IsScalar(k) || k == LBracket || k == LBrace
  }

  /** A parse result keeps the state sane and does not move backwards;
      when strict, an accepted result moved forward. */
  predicate Progress(runes: seq<char>, ps: PState, r: Parsed, strict: bool)
    requires Sane(runes, ps)
  {
    match r
    case Accepted(q) => Sane(runes, q) && (if strict then Fuel(runes, q) < Fuel(runes, ps) else Fuel(runes, q) <= Fuel(runes, ps))
    case Rejected(_, at) => Sane(runes, at) && Fuel(runes, at) <= Fuel(runes, ps)
    case Crashed => true
  }

  /** Consume the current token. */
  function Shift(runes: seq<char>, ps: PState): (r: Parsed)
    requires Sane(runes, ps) && ps.cur.kind != Eof
    ensures !r.Rejected? && Progress(runes, ps, r, true)
    ensures r.Accepted? <==> Advance(runes, ps).Some?
    ensures r.Accepted? ==> r.after.cur == ps.peek
  {
    match Advance(runes, ps)
    case None => Crashed
    case Some(q) => Accepted(q)
  }

  /** The comma the loops accept after the first member or element. */
  function SkipComma(runes: seq<char>, ps: PState, first: bool): (r: Option<PState>)
    requires Sane(runes, ps)
    ensures r.Some? ==> Sane(runes, r.value) && Fuel(runes, r.value) <= Fuel(runes, ps)
    ensures first || ps.cur.kind != Comma ==> r == Some(ps)
    ensures !first && ps.cur.kind == Comma ==> r == Advance(runes, ps)
  {
    if !first && ps.cur.kind == Comma then Advance(runes, ps) else Some(ps)
  }

  /** parseValue. */
  function Value(m: Messages, runes: seq<char>, ps: PState): (r: Parsed)
    requires Sane(runes, ps)
    ensures Progress(runes, ps, r, true)
    decreases Fuel(runes, ps), 2
  {
    match ps.cur.kind
    case StringLit => Shift(runes, ps)
    case NumberLit => Shift(runes, ps)
    case LBracket => Array(m, runes, ps)
    case LBrace => Object(m, runes, ps)
    case True => Shift(runes, ps)
    case False => Shift(runes, ps)
    case Null => Shift(runes, ps)
    case _ => Rejected(m.value, ps)
  }

  /** parseObject. The closing brace is consumed without a check: Members
      only accepts at a closing brace, so the source's "right brace" branch
      is never taken. */
  function Object(m: Messages, runes: seq<char>, ps: PState): (r: Parsed)
    requires Sane(runes, ps)
    ensures Progress(runes, ps, r, true)
    ensures ps.cur.kind == LBrace && r.Rejected? ==> Fuel(runes, r.at) < Fuel(runes, ps)
    decreases Fuel(runes, ps), 1
  {
    if ps.cur.kind != LBrace then Rejected(m.leftBrace, ps)
    else
      match Advance(runes, ps)
      case None => Crashed
      case Some(q) =>
        match Members(m, runes, q, true)
        case Accepted(e) => Shift(runes, e)
        case Rejected(message, at) => Rejected(message, at)
        case Crashed => Crashed
  }

  /** The member loop of parseObject, from a state inside the braces; first
      tells whether no member was parsed yet. It accepts exactly at a
      closing brace. */
  function Members(m: Messages, runes: seq<char>, ps: PState, first: bool): (r: Parsed)
    requires Sane(runes, ps)
    ensures Progress(runes, ps, r, false)
    ensures r.Accepted? ==> r.after.cur.kind == RBrace
    decreases Fuel(runes, ps), 0
  {
    if ps.cur.kind == RBrace then Accepted(ps)
    else
      match SkipComma(runes, ps, first)
      case None => Crashed
      case Some(p1) =>
        if p1.cur.kind != StringLit then Rejected(m.stringLiteral, p1)
        else
          match Advance(runes, p1)
          case None => Crashed
          case Some(p2) =>
            if p2.cur.kind != Colon then Rejected(m.colon, p2)
            else
              match Advance(runes, p2)
              case None => Crashed
              case Some(p3) =>
                match Value(m, runes, p3)
                case Accepted(p4) => Members(m, runes, p4, false)
                case Rejected(message, at) => Rejected(message, at)
                case Crashed => Crashed
  }

  /** parseArray. As in Object, the closing bracket needs no check. */
  function Array(m: Messages, runes: seq<char>, ps: PState): (r: Parsed)
    requires Sane(runes, ps)
    ensures Progress(runes, ps, r, true)
    ensures ps.cur.kind == LBracket && r.Rejected? ==> Fuel(runes, r.at) < Fuel(runes, ps)
    decreases Fuel(runes, ps), 1
  {
    if ps.cur.kind != LBracket then Rejected(m.leftBracket, ps)
    else
      match Advance(runes, ps)
      case None => Crashed
      case Some(q) =>
        match Elements(m, runes, q, true)
        case Accepted(e) => Shift(runes, e)
        case Rejected(message, at) => Rejected(message, at)
        case Crashed => Crashed
  }

  /** The element loop of parseArray; it accepts exactly at a closing
      bracket. */
  function Elements(m: Messages, runes: seq<char>, ps: PState, first: bool): (r: Parsed)
    requires Sane(runes, ps)
    ensures Progress(runes, ps, r, false)
    ensures r.Accepted? ==> r.after.cur.kind == RBracket
    decreases Fuel(runes, ps), 3
  {
    if ps.cur.kind == RBracket then Accepted(ps)
    else
      match SkipComma(runes, ps, first)
      case None => Crashed
      case Some(p1) =>
        match Value(m, runes, p1)
        case Accepted(p2) => Elements(m, runes, p2, false)
        case Rejected(message, at) => Rejected(message, at)
        case Crashed => Crashed
  }

  /** Parse: the root must be an object; whatever follows it is not looked
      at beyond the one token the parser peeks. */
  function Parse(m: Messages, runes: seq<char>): (r: Parsed)
    ensures r.Accepted? || r.Rejected? ==> Start(runes).Some?
    ensures r.Accepted? ==> Sane(runes, r.after)
  {
    StartSane(runes);
    match Start(runes)
    case None => Crashed
    case Some(s) => Object(m, runes, s)
  }
}
