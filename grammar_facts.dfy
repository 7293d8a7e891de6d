/** Properties of the recursive descent: why each rejection happens, that
    both message sets share one grammar, how the root and the commas are
    treated, and that the closing-delimiter errors never occur. */
module GrammarFacts {
  import opened Options
  import opened Token
  import opened Scanner
  import opened Grammar

  // ---------------------------------------------------------------------
  // Why a parse is rejected

  /** A rejection inside an object or array: a member that does not start
      with a string literal, a key without a colon, or a token that starts
      no value. */
  predicate InnerReason(m: Messages, message: string, k: TokenKind) {
    (message == m.stringLiteral && k != StringLit) ||
    (message == m.colon && k != Colon) ||
    (message == m.value && !IsValueStart(k))
  }

  predicate Explained(m: Messages, r: Parsed) {
    r.Rejected? ==> InnerReason(m, r.message, r.at.cur.kind)
  }

  lemma {:induction false} ValueExplained(m: Messages, runes: seq<char>, ps: PState)
    requires Sane(runes, ps)
    ensures Explained(m, Value(m, runes, ps))
    decreases Fuel(runes, ps), 2
  {
    match ps.cur.kind
    case LBracket => ArrayExplained(m, runes, ps);
    case LBrace => ObjectExplained(m, runes, ps);
    case _ =>
  }

  lemma {:induction false} ObjectExplained(m: Messages, runes: seq<char>, ps: PState)
    requires Sane(runes, ps) && ps.cur.kind == LBrace
    ensures Explained(m, Object(m, runes, ps))
    decreases Fuel(runes, ps), 1
  {
    match Advance(runes, ps)
    case None =>
    case Some(q) => MembersExplained(m, runes, q, true);
  }

  lemma {:induction false} MembersExplained(m: Messages, runes: seq<char>, ps: PState, first: bool)
    requires Sane(runes, ps)
    ensures Explained(m, Members(m, runes, ps, first))
    decreases Fuel(runes, ps), 0
  {
    if ps.cur.kind != RBrace {
      match SkipComma(runes, ps, first)
      case None =>
      case Some(p1) =>
        if p1.cur.kind == StringLit {
          match Advance(runes, p1)
          case None =>
          case Some(p2) =>
            if p2.cur.kind == Colon {
              match Advance(runes, p2)
              case None =>
              case Some(p3) =>
                ValueExplained(m, runes, p3);
                match Value(m, runes, p3)
                case Accepted(p4) => MembersExplained(m, runes, p4, false);
                case Rejected(_, _) =>
                case Crashed =>
            }
        }
    }
  }

  lemma {:induction false} ArrayExplained(m: Messages, runes: seq<char>, ps: PState)
    requires Sane(runes, ps) && ps.cur.kind == LBracket
    ensures Explained(m, Array(m, runes, ps))
    decreases Fuel(runes, ps), 1
  {
    match Advance(runes, ps)
    case None =>
    case Some(q) => ElementsExplained(m, runes, q, true);
  }

  lemma {:induction false} ElementsExplained(m: Messages, runes: seq<char>, ps: PState, first: bool)
    requires Sane(runes, ps)
    ensures Explained(m, Elements(m, runes, ps, first))
    decreases Fuel(runes, ps), 3
  {
    if ps.cur.kind != RBracket {
      match SkipComma(runes, ps, first)
      case None =>
      case Some(p1) =>
        ValueExplained(m, runes, p1);
        match Value(m, runes, p1)
        case Accepted(p2) => ElementsExplained(m, runes, p2, false);
        case Rejected(_, _) =>
        case Crashed =>
    }
  }

  /** Every rejection of Parse is either the root's "left brace" error at
      the very first token, or one of the inner reasons. */
  lemma ParseExplained(m: Messages, runes: seq<char>)
    ensures var r := Parse(m, runes);
            r.Rejected? ==>
              (r.message == m.leftBrace && Some(r.at) == Start(runes) && r.at.cur.kind != LBrace) ||
              InnerReason(m, r.message, r.at.cur.kind)
  {
    StartSane(runes);
    match Start(runes)
    case None =>
    case Some(s) =>
      if s.cur.kind == LBrace {
        ObjectExplained(m, runes, s);
      }
  }

  /** The messages a parser can report differ from its closing-delimiter
      and "left bracket" messages. */
  predicate DeadDistinct(m: Messages) {
    Apart(m.rightBrace, m) && Apart(m.rightBracket, m) && Apart(m.leftBracket, m)
  }

  predicate Apart(dead: string, m: Messages) {
    dead != m.leftBrace && dead != m.stringLiteral && dead != m.colon && dead != m.value
  }

  /** The "right brace", "right bracket" and "left bracket" messages are
      never reported: the first two belong to dead branches, and arrays are
      only entered at a '['. */
  lemma DeadMessages(m: Messages, runes: seq<char>)
    requires DeadDistinct(m)
    ensures var r := Parse(m, runes);
            r.Rejected? ==> r.message != m.rightBrace && r.message != m.rightBracket && r.message != m.leftBracket
  {
    ParseExplained(m, runes);
    var r := Parse(m, runes);
    if r.Rejected? {
      assert r.message == m.leftBrace || r.message == m.stringLiteral || r.message == m.colon || r.message == m.value;
    }
  }

  /** Both message sets keep the dead messages apart from the live ones. */
  lemma MessageSetsDistinct()
    ensures DeadDistinct(Current) && DeadDistinct(Legacy)
  {
    assert Legacy.rightBrace[9] == '}' && Legacy.rightBracket[9] == ']' && Legacy.leftBracket[9] == '[';
    assert Legacy.leftBrace[9] == '{' && Legacy.colon[9] == ':';
  }

  // ---------------------------------------------------------------------
  // One grammar for both message sets

  /** A result with its message forgotten. */
  function Erase(r: Parsed): Parsed {
    match r
    case Rejected(_, at) => Rejected("", at)
    case _ => r
  }

  lemma {:induction false} ValueSameShape(m1: Messages, m2: Messages, runes: seq<char>, ps: PState)
    requires Sane(runes, ps)
    ensures Erase(Value(m1, runes, ps)) == Erase(Value(m2, runes, ps))
    decreases Fuel(runes, ps), 2
  {
    match ps.cur.kind
    case LBracket => ArraySameShape(m1, m2, runes, ps);
    case LBrace => ObjectSameShape(m1, m2, runes, ps);
    case _ =>
  }

  lemma {:induction false} ObjectSameShape(m1: Messages, m2: Messages, runes: seq<char>, ps: PState)
    requires Sane(runes, ps)
    ensures Erase(Object(m1, runes, ps)) == Erase(Object(m2, runes, ps))
    decreases Fuel(runes, ps), 1
  {
    if ps.cur.kind == LBrace {
      match Advance(runes, ps)
      case None =>
      case Some(q) => MembersSameShape(m1, m2, runes, q, true);
    }
  }

  lemma {:induction false} MembersSameShape(m1: Messages, m2: Messages, runes: seq<char>, ps: PState, first: bool)
    requires Sane(runes, ps)
    ensures Erase(Members(m1, runes, ps, first)) == Erase(Members(m2, runes, ps, first))
    decreases Fuel(runes, ps), 0
  {
    if ps.cur.kind != RBrace {
      match SkipComma(runes, ps, first)
      case None =>
      case Some(p1) =>
        if p1.cur.kind == StringLit {
          match Advance(runes, p1)
          case None =>
          case Some(p2) =>
            if p2.cur.kind == Colon {
              match Advance(runes, p2)
              case None =>
              case Some(p3) =>
                ValueSameShape(m1, m2, runes, p3);
                match Value(m1, runes, p3)
                case Accepted(p4) => MembersSameShape(m1, m2, runes, p4, false);
                case Rejected(_, _) =>
                case Crashed =>
            }
        }
    }
  }

  lemma {:induction false} ArraySameShape(m1: Messages, m2: Messages, runes: seq<char>, ps: PState)
    requires Sane(runes, ps)
    ensures Erase(Array(m1, runes, ps)) == Erase(Array(m2, runes, ps))
    decreases Fuel(runes, ps), 1
  {
    if ps.cur.kind == LBracket {
      match Advance(runes, ps)
      case None =>
      case Some(q) => ElementsSameShape(m1, m2, runes, q, true);
    }
  }

  lemma {:induction false} ElementsSameShape(m1: Messages, m2: Messages, runes: seq<char>, ps: PState, first: bool)
    requires Sane(runes, ps)
    ensures Erase(Elements(m1, runes, ps, first)) == Erase(Elements(m2, runes, ps, first))
    decreases Fuel(runes, ps), 3
  {
    if ps.cur.kind != RBracket {
      match SkipComma(runes, ps, first)
      case None =>
      case Some(p1) =>
        ValueSameShape(m1, m2, runes, p1);
        match Value(m1, runes, p1)
        case Accepted(p2) => ElementsSameShape(m1, m2, runes, p2, false);
        case Rejected(_, _) =>
        case Crashed =>
    }
  }

  /** Both parsers accept, reject and crash on the same inputs, stopping in
      the same state; only the message differs. */
  lemma SameGrammar(runes: seq<char>)
    ensures Erase(Parse(Current, runes)) == Erase(Parse(Legacy, runes))
  {
    StartSane(runes);
    match Start(runes)
    case None =>
    case Some(s) => ObjectSameShape(Current, Legacy, runes, s);
  }

  // ---------------------------------------------------------------------
  // The root, values and empty containers

  /** A root that is not '{' is rejected with the "left brace" message at
      the first token, without advancing. */
  lemma RootNotObject(m: Messages, runes: seq<char>, s: PState)
    requires Start(runes) == Some(s) && s.cur.kind != LBrace
    ensures Parse(m, runes) == Rejected(m.leftBrace, s)
  {
    StartSane(runes);
  }

  /** parseValue records "value" at the token itself exactly when that token
      starts no value. */
  lemma ValueRejectsAtStart(m: Messages, runes: seq<char>, ps: PState)
    requires Sane(runes, ps)
    ensures Value(m, runes, ps) == Rejected(m.value, ps) <==> !IsValueStart(ps.cur.kind)
  {
  }

  /** A scalar value is exactly one token: it is accepted with the state of
      one nextToken call, unless that call fails. */
  lemma ScalarValue(m: Messages, runes: seq<char>, ps: PState)
    requires Sane(runes, ps) && IsScalar(ps.cur.kind)
    ensures Value(m, runes, ps).Accepted? <==> Advance(runes, ps).Some?
    ensures Value(m, runes, ps).Accepted? ==> Value(m, runes, ps).after == Advance(runes, ps).value
    ensures !Value(m, runes, ps).Rejected?
  {
  }

  /** "{}" is accepted: the state after it is the one after the closing
      brace, whatever token that brings. */
  lemma EmptyObject(m: Messages, runes: seq<char>, ps: PState, p1: PState, p2: PState)
    requires Sane(runes, ps) && ps.cur.kind == LBrace
    requires Advance(runes, ps) == Some(p1) && p1.cur.kind == RBrace && Advance(runes, p1) == Some(p2)
    ensures Object(m, runes, ps) == Accepted(p2)
    ensures Value(m, runes, ps) == Accepted(p2)
  {
  }

  /** "[]" is accepted in the same way. */
  lemma EmptyArray(m: Messages, runes: seq<char>, ps: PState, p1: PState, p2: PState)
    requires Sane(runes, ps) && ps.cur.kind == LBracket
    requires Advance(runes, ps) == Some(p1) && p1.cur.kind == RBracket && Advance(runes, p1) == Some(p2)
    ensures Array(m, runes, ps) == Accepted(p2)
    ensures Value(m, runes, ps) == Accepted(p2)
  {
  }

  // ---------------------------------------------------------------------
  // Commas

  /** Commas are optional: after the first member, a missing comma is not
      noticed, and a loop that has not seen a comma behaves as at the
      start. */
  lemma MissingCommaIgnored(m: Messages, runes: seq<char>, ps: PState)
    requires Sane(runes, ps) && ps.cur.kind != Comma
    ensures Members(m, runes, ps, false) == Members(m, runes, ps, true)
    ensures Elements(m, runes, ps, false) == Elements(m, runes, ps, true)
  {
  }

  /** A comma before the first member is not skipped, so it is reported as
      a missing string literal. */
  lemma LeadingCommaInObject(m: Messages, runes: seq<char>, ps: PState)
    requires Sane(runes, ps) && ps.cur.kind == Comma
    ensures Members(m, runes, ps, true) == Rejected(m.stringLiteral, ps)
  {
  }

  /** A comma followed by '}' is skipped, and the '}' is then reported as a
      missing string literal. */
  lemma TrailingCommaInObject(m: Messages, runes: seq<char>, ps: PState, p1: PState)
    requires Sane(runes, ps) && ps.cur.kind == Comma
    requires Advance(runes, ps) == Some(p1) && p1.cur.kind == RBrace
    ensures Members(m, runes, ps, false) == Rejected(m.stringLiteral, p1)
  {
  }

  /** In an array a leading comma, a trailing comma before ']' and a doubled
      comma are all reported as "value" at the offending token. */
  lemma CommasInArray(m: Messages, runes: seq<char>, ps: PState, p1: PState)
    requires Sane(runes, ps) && ps.cur.kind == Comma
    requires Advance(runes, ps) == Some(p1)
    ensures Elements(m, runes, ps, true) == Rejected(m.value, ps)
    ensures p1.cur.kind == RBracket || p1.cur.kind == Comma ==>
              Elements(m, runes, ps, false) == Rejected(m.value, p1)
  {
  }

  /** EOF at the head of the member loop is rejected with the "string
      literal" message, and at the head of the element loop with "value";
      never with a closing-delimiter message. */
  lemma UnterminatedAtEof(m: Messages, runes: seq<char>, ps: PState, first: bool)
    requires Sane(runes, ps) && ps.cur.kind == Eof
    ensures Members(m, runes, ps, first) == Rejected(m.stringLiteral, ps)
    ensures Elements(m, runes, ps, first) == Rejected(m.value, ps)
  {
  }

  /** An object that the input ends inside right after a key is rejected at
      EOF with the "colon" message. */
  lemma KeyAtEof(m: Messages, runes: seq<char>, ps: PState, first: bool, p2: PState)
    requires Sane(runes, ps) && ps.cur.kind == StringLit
    requires Advance(runes, ps) == Some(p2) && p2.cur.kind == Eof
    ensures Members(m, runes, ps, first) == Rejected(m.colon, p2)
  {
  }
}
