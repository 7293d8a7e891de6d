/** The two recursive-descent parsers, internal/json-parser/parser.go and
    internal/parser/parser.go, as one class whose methods update the token
    fields and the error list in place. The two differ only in their error
    messages (the messages field) and in the helpers the older one adds
    (CurTokenIs, PeekTokenIs, ExpectPeek, PeekError, GetTokenString). Each
    parse method is proved to follow the parse function of module Grammar
    from the state it starts in. */
module Parser {
  import opened Options
  import opened Token
  import opened Scanner
  import opened Grammar
  import Lexer

  /** One recorded error: its message and the token current when it was
      recorded. */
  datatype ParserError = ParserError(message: string, token: Token)

  /** The outcome of a parse method: the source's true and false, or a
      panic of the scanner (an index past the end of the input), after
      which the source stops. */
  datatype Verdict = Accept | Reject | Panic

  /** The token the fields hold before the first nextToken call. The source
      starts from Go's zero token, whose kind is the empty string and thus
      no kind of TokenKind; both fields are overwritten before the parser
      looks at them. */
  const Placeholder: Token := Token(Illegal, "", 0, 0)

  class Parser {
    const messages: Messages
    const lexer: Lexer.Lexer
    var errors: seq<ParserError>
    var curToken: Token
    var peekToken: Token

    /** The abstract parser state of module Grammar. */
    ghost function Config(): PState
      reads this, lexer
    {
      PState(curToken, peekToken, lexer.State())
    }

    ghost predicate Valid()
      reads this, lexer
    {
      lexer.Valid() && Sane(lexer.runes, Config())
    }

    /** A parse method reported r: true with no new error and the state
        after the parse, false with exactly one new error holding the
        current token at the failure, or a panic. */
    ghost predicate Reports(r: Parsed, v: Verdict, before: seq<ParserError>)
      reads this, lexer
    {
      match r
      case Accepted(q) => v == Accept && errors == before && Valid() && Config() == q
      case Rejected(message, at) =>
        v == Reject && errors == before + [ParserError(message, at.cur)] && Valid() && Config() == at
      case Crashed => v == Panic
    }

    constructor (messages: Messages, lexer: Lexer.Lexer)
      ensures this.messages == messages && this.lexer == lexer
      ensures errors == [] && curToken == Placeholder && peekToken == Placeholder
    {
      this.messages := messages;
      this.lexer := lexer;
      errors := [];
      curToken, peekToken := Placeholder, Placeholder;
    }

    /** NewParser on the text of a file: a fresh scanner and two nextToken
        calls, so the current and peeked tokens are the scanner's first
        two. ok is false when the scanner panicked. */
    static method New(messages: Messages, text: seq<char>) returns (p: Parser, ok: bool)
      ensures fresh(p) && fresh(p.lexer) && p.messages == messages && p.lexer.runes == text
      ensures (if ok then Some(p.Config()) else None) == Start(text)
      ensures ok ==> p.Valid() && p.errors == []
    {
      var l := new Lexer.Lexer(text);
      p := new Parser(messages, l);
      ok := p.Prime();
    }

    /** The two nextToken calls of NewParser, from the scanner's initial
        state. */
    method Prime() returns (ok: bool)
      requires lexer.Valid() && lexer.State().position == 0
      modifies this, lexer
      ensures errors == old(errors)
      ensures (if ok then Some(Config()) else None) == StartAt(lexer.runes, old(lexer.State()))
      ensures ok ==> Valid()
    {
      StartTwice(lexer.runes, lexer.State(), curToken, peekToken);
      ok := NextToken();
      if ok {
        ok := NextToken();
      }
    }

    /** nextToken: the peeked token becomes current and one new token is
        pulled from the scanner; ok is false when the scanner panicked. */
    method NextToken() returns (ok: bool)
      requires lexer.Valid()
      modifies this, lexer
      ensures errors == old(errors)
      ensures ok <==> Advance(lexer.runes, old(Config())).Some?
      ensures ok ==> lexer.Valid() && Config() == Advance(lexer.runes, old(Config())).value
    {
      var t := lexer.NextToken();
      match t
      case None =>
        ok := false;
      case Some(token) =>
        curToken, peekToken := peekToken, token;
        ok := true;
    }

    /** addError: one error holding the current token is appended. */
    method AddError(message: string)
      modifies this
      ensures errors == old(errors) + [ParserError(message, curToken)]
      ensures curToken == old(curToken) && peekToken == old(peekToken)
    {
      errors := errors + [ParserError(message, curToken)];
    }

    /** Parse: the root must be an object. */
    method Parse() returns (v: Verdict)
      requires Valid()
      modifies this, lexer
      ensures Reports(Object(messages, lexer.runes, old(Config())), v, old(errors))
    {
      v := ParseObject();
    }

    /** One nextToken call that consumes the current token. */
    method Consume() returns (v: Verdict)
      requires Valid() && curToken.kind != Eof
      modifies this, lexer
      ensures Reports(Shift(lexer.runes, old(Config())), v, old(errors))
    {
      var ok := NextToken();
      v := if ok then Accept else Panic;
    }

    /** parseValue. */
    method ParseValue() returns (v: Verdict)
      requires Valid()
      modifies this, lexer
      ensures Reports(Value(messages, lexer.runes, old(Config())), v, old(errors))
      decreases Fuel(lexer.runes, Config()), 2
    {
      match curToken.kind
      case StringLit => v := Consume();
      case NumberLit => v := Consume();
      case LBracket => v := ParseArray();
      case LBrace => v := ParseObject();
      case True => v := Consume();
      case False => v := Consume();
      case Null => v := Consume();
      case _ =>
        AddError(messages.value);
        v := Reject;
    }

    /** parseObject. The loop leaves only at a closing brace, so the
        source's check for one after the loop always passes. */
    method ParseObject() returns (v: Verdict)
      requires Valid()
      modifies this, lexer
      ensures Reports(Object(messages, lexer.runes, old(Config())), v, old(errors))
      decreases Fuel(lexer.runes, Config()), 1
    {
      ghost var s0 := Config();
      if curToken.kind != LBrace {
        AddError(messages.leftBrace);
        return Reject;
      }
      var ok := NextToken();
      if !ok {
        return Panic;
      }
      var first := true;
      ghost var r := Members(messages, lexer.runes, Config(), true);
      while true
        invariant Valid() && errors == old(errors)
        invariant Fuel(lexer.runes, Config()) < Fuel(lexer.runes, s0)
        invariant Members(messages, lexer.runes, Config(), first) == r
        invariant Object(messages, lexer.runes, s0) ==
                  match r
                  case Accepted(e) => Shift(lexer.runes, e)
                  case Rejected(message, at) => Rejected(message, at)
                  case Crashed => Crashed
        decreases Fuel(lexer.runes, Config())
      {
        if curToken.kind == RBrace {
          break;
        }
        v := ParseMember(first);
        if v != Accept {
          return;
        }
        first := false;
      }
      assert curToken.kind == RBrace;
      v := Consume();
    }

    /** The body of parseObject's loop at a token other than a closing
        brace: the comma unless this is the first member, then the key, the
        colon and the value. Accepting, it leaves the rest of the loop to do
        what the whole loop would have done from the member's start. */
    method ParseMember(first: bool) returns (v: Verdict)
      requires Valid() && curToken.kind != RBrace
      modifies this, lexer
      ensures v == Accept ==>
                Valid() && errors == old(errors) && Fuel(lexer.runes, Config()) < Fuel(lexer.runes, old(Config())) &&
                Members(messages, lexer.runes, old(Config()), first) == Members(messages, lexer.runes, Config(), false)
      ensures v != Accept ==> Reports(Members(messages, lexer.runes, old(Config()), first), v, old(errors))
      decreases Fuel(lexer.runes, Config()), 0
    {
      var ok;
      if !first && curToken.kind == Comma {
        ok := NextToken();
        if !ok {
          return Panic;
        }
      }
      if curToken.kind != StringLit {
        AddError(messages.stringLiteral);
        return Reject;
      }
      ok := NextToken();
      if !ok {
        return Panic;
      }
      if curToken.kind != Colon {
        AddError(messages.colon);
        return Reject;
      }
      ok := NextToken();
      if !ok {
        return Panic;
      }
      v := ParseValue();
    }

    /** parseArray. As in ParseObject, the check for the closing bracket
        after the loop always passes. */
    method ParseArray() returns (v: Verdict)
      requires Valid()
      modifies this, lexer
      ensures Reports(Array(messages, lexer.runes, old(Config())), v, old(errors))
      decreases Fuel(lexer.runes, Config()), 1
    {
      ghost var s0 := Config();
      if curToken.kind != LBracket {
        AddError(messages.leftBracket);
        return Reject;
      }
      var ok := NextToken();
      if !ok {
        return Panic;
      }
      var first := true;
      ghost var r := Elements(messages, lexer.runes, Config(), true);
      while true
        invariant Valid() && errors == old(errors)
        invariant Fuel(lexer.runes, Config()) < Fuel(lexer.runes, s0)
        invariant Elements(messages, lexer.runes, Config(), first) == r
        invariant Array(messages, lexer.runes, s0) ==
                  match r
                  case Accepted(e) => Shift(lexer.runes, e)
                  case Rejected(message, at) => Rejected(message, at)
                  case Crashed => Crashed
        decreases Fuel(lexer.runes, Config())
      {
        if curToken.kind == RBracket {
          break;
        }
        if !first && curToken.kind == Comma {
          ok := NextToken();
          if !ok {
            return Panic;
          }
        }
        v := ParseValue();
        if v != Accept {
          return;
        }
        first := false;
      }
      assert curToken.kind == RBracket;
      v := Consume();
    }

    // -------------------------------------------------------------------
    // The helpers of internal/parser/parser.go

    /** curTokenIs: the source compares the kinds' strings. */
    function CurTokenIs(t: TokenKind): (r: bool)
      reads this
      ensures r <==> curToken.kind == t
    {
      SpellingInjective(curToken.kind, t);
      Spelling(curToken.kind) == Spelling(t)
    }

    /** peekTokenIs: the source compares the kinds' strings. */
    function PeekTokenIs(t: TokenKind): (r: bool)
      reads this
      ensures r <==> peekToken.kind == t
    {
      SpellingInjective(peekToken.kind, t);
      Spelling(peekToken.kind) == Spelling(t)
    }

    /** expectPeek: advance when the peeked token has kind t; otherwise
        record an error holding the current token, not the peeked one, and
        do not advance. */
    method ExpectPeek(t: TokenKind) returns (v: Verdict)
      requires lexer.Valid()
      modifies this, lexer
      ensures old(peekToken.kind) == t ==> v != Reject && errors == old(errors)
      ensures old(peekToken.kind) == t ==> (v == Accept <==> Advance(lexer.runes, old(Config())).Some?)
      ensures old(peekToken.kind) == t && v == Accept ==>
                lexer.Valid() && Config() == Advance(lexer.runes, old(Config())).value
      ensures old(peekToken.kind) != t ==>
                v == Reject && Config() == old(Config()) &&
                errors == old(errors) + [ParserError(Unexpected([t], peekToken.kind), curToken)]
    {
      if PeekTokenIs(t) {
        var ok := NextToken();
        v := if ok then Accept else Panic;
      } else {
        PeekError([t]);
        v := Reject;
      }
    }

    /** peekError: one error naming the expected kinds and the peeked kind,
        holding the current token. */
    method PeekError(ts: seq<TokenKind>)
      modifies this
      ensures errors == old(errors) + [ParserError(Unexpected(ts, peekToken.kind), curToken)]
      ensures curToken == old(curToken) && peekToken == old(peekToken)
    {
      var listed := GetTokenString(ts);
      var message := "expected next token to be " + listed + ", got " + Spelling(peekToken.kind) + " instead";
      errors := errors + [ParserError(message, curToken)];
    }

    /** getTokenString: the kinds separated by commas, with " or " before
        the last one. */
    static method GetTokenString(ts: seq<TokenKind>) returns (s: string)
      ensures s == TokenList(ts)
    {
      s := "";
      for i := 0 to |ts|
        invariant s == if 0 < i == |ts| then TokenList(ts) else Joined(Names(ts[..i]), ",")
      {
        NamesSnoc(ts, i);
        if i == |ts| - 1 {
          s := s + " or ";
        } else if i > 0 {
          s := s + ",";
        }
        s := s + Spelling(ts[i]);
        if i == |ts| - 1 {
          assert ts[..i] == ts[..|ts| - 1];
        }
      }
      if |ts| == 0 {
        assert ts[..0] == [];
      }
    }
  }

  /** The spellings of a list of kinds. */
  function Names(ts: seq<TokenKind>): (r: seq<string>)
    ensures |r| == |ts| && forall i :: 0 <= i < |ts| ==> r[i] == Spelling(ts[i])
  {
    seq(|ts|, i requires 0 <= i < |ts| => Spelling(ts[i]))
  }

  lemma NamesSnoc(ts: seq<TokenKind>, i: nat)
    requires i < |ts|
    ensures Names(ts[..i + 1]) == Names(ts[..i]) + [Spelling(ts[i])]
  {
    assert Names(ts[..i + 1]) == Names(ts[..i]) + [Spelling(ts[i])];
  }

  /** The strings of xs separated by sep. */
  function Joined(xs: seq<string>, sep: string): string {
    if |xs| == 0 then ""
    else if |xs| == 1 then xs[0]
    else Joined(xs[..|xs| - 1], sep) + sep + xs[|xs| - 1]
  }

  /** The text getTokenString builds: the kinds before the last joined by
      commas, then " or " and the last kind. */
  function TokenList(ts: seq<TokenKind>): string {
    if ts == [] then "" else Joined(Names(ts[..|ts| - 1]), ",") + " or " + Spelling(ts[|ts| - 1])
  }

  /** getTokenString's text for no kinds and for one kind. */
  lemma TokenListFew(ts: seq<TokenKind>)
    ensures ts == [] ==> TokenList(ts) == ""
    ensures |ts| == 1 ==> TokenList(ts) == " or " + Spelling(ts[0])
  {
    if |ts| == 1 {
      assert ts[..0] == [];
    }
  }

  /** With two kinds or more, the text begins with the first kind. */
  lemma TokenListStarts(ts: seq<TokenKind>)
    requires |ts| >= 2
    ensures |Spelling(ts[0])| <= |TokenList(ts)| && TokenList(ts)[..|Spelling(ts[0])|] == Spelling(ts[0])
  {
    var names := Names(ts[..|ts| - 1]);
    FirstName(ts);
    JoinedPrefix(names, ",");
    TokenListSplit(ts);
    PrefixOfConcat(Joined(names, ","), " or " + Spelling(ts[|ts| - 1]), |Spelling(ts[0])|);
  }

  lemma FirstName(ts: seq<TokenKind>)
    requires |ts| >= 2
    ensures |Names(ts[..|ts| - 1])| >= 1 && Names(ts[..|ts| - 1])[0] == Spelling(ts[0])
  {
  }

  lemma TokenListSplit(ts: seq<TokenKind>)
    requires |ts| >= 1
    ensures TokenList(ts) == Joined(Names(ts[..|ts| - 1]), ",") + (" or " + Spelling(ts[|ts| - 1]))
  {
  }

  lemma PrefixOfConcat(a: string, b: string, k: nat)
    requires k <= |a|
    ensures (a + b)[..k] == a[..k]
  {
  }

  /** With one kind or more, the text ends with " or " and the last kind. */
  lemma TokenListEnds(ts: seq<TokenKind>)
    requires |ts| >= 1
    ensures var tail := " or " + Spelling(ts[|ts| - 1]);
            |tail| <= |TokenList(ts)| && TokenList(ts)[|TokenList(ts)| - |tail|..] == tail
  {
    var j := Joined(Names(ts[..|ts| - 1]), ",");
    var tail := " or " + Spelling(ts[|ts| - 1]);
    assert TokenList(ts) == j + tail;
    assert (j + tail)[|j|..] == tail;
  }

  /** Three kinds: commas between all but the last two. */
  lemma TokenListExample()
    ensures TokenList([LBrace, Colon, RBrace]) == "{,: or }"
  {
    var kinds := [LBrace, Colon, RBrace];
    assert kinds[..2] == [LBrace, Colon];
    var names := Names([LBrace, Colon]);
    assert names == ["{", ":"];
    assert names[..1] == ["{"];
    assert Joined(names, ",") == "{,:";
  }

  /** A joined list begins with its first string. */
  lemma {:induction false} JoinedPrefix(xs: seq<string>, sep: string)
    requires |xs| >= 1
    ensures |xs[0]| <= |Joined(xs, sep)| && Joined(xs, sep)[..|xs[0]|] == xs[0]
  {
    if |xs| > 1 {
      var init := xs[..|xs| - 1];
      JoinedPrefix(init, sep);
      assert init[0] == xs[0];
      var a := Joined(init, sep);
      assert Joined(xs, sep) == a + (sep + xs[|xs| - 1]);
      assert (a + (sep + xs[|xs| - 1]))[..|xs[0]|] == a[..|xs[0]|];
    }
  }

  /** The message of peekError. */
  function Unexpected(ts: seq<TokenKind>, got: TokenKind): string {
    "expected next token to be " + TokenList(ts) + ", got " + Spelling(got) + " instead"
  }
}
