/** The scanner of internal/lexer/lexer.go as a class whose methods update
    its fields in place. Each method is proved to follow the functional
    specification in module Scanner. */
module Lexer {
  import opened Options
  import opened Token
  import opened Scanner

  class Lexer {
    const runes: seq<char>
    var position: nat      // index of the current rune
    var readPosition: nat  // index of the next read
    var currentRune: char
    var line: int
    var column: int

    /** The abstract scanner state. */
    ghost function State(): Cursor
      reads this
    {
      Cursor(position, readPosition, line, column)
    }

    ghost predicate Valid()
      reads this
    {
      Coherent(runes, State()) && currentRune == At(runes, position) && line >= 1 && column >= 0
    }

    /** NewLexer: line 1, column 0, and the first rune read if there is one. */
    constructor (text: seq<char>)
      ensures Valid() && runes == text && State() == Initial(text)
      ensures text != [] ==> currentRune == text[0]
      ensures text == [] ==> currentRune == NUL
    {
      runes := text;
      position, readPosition, currentRune := 0, 0, NUL;
      line, column := 1, 0;
      new;
      if text != [] {
        ReadRune();
        assert State() == Cursor(0, 1, 1, 0);
      }
    }

    /** readRune: the rune at the next read (NUL past the end) becomes current. */
    method ReadRune()
      modifies this
      ensures State() == Scanner.ReadRune(old(State()))
      ensures currentRune == At(runes, position)
    {
      if readPosition >= |runes| {
        currentRune := NUL;
      } else {
        currentRune := runes[readPosition];
      }
      position := readPosition;
      readPosition := readPosition + 1;
    }

    /** peekRune: the rune at the next read, NUL past the end. */
    function PeekRune(): (r: char)
      reads this
      ensures r == At(runes, readPosition)
    {
      if readPosition >= |runes| then NUL else runes[readPosition]
    }

    /** peekRuneN: guards only the next read, so readPosition + n may be out
        of range (None). */
    function PeekRuneN(n: nat): (r: Option<char>)
      reads this
      ensures r.Some? <==> PeekNInRange(|runes|, readPosition, n)
      ensures r.Some? && readPosition < |runes| ==> r.value == runes[readPosition + n]
      ensures r.Some? && readPosition >= |runes| ==> r.value == NUL
    {
      if readPosition >= |runes| then Some(NUL)
      else if readPosition + n < |runes| then Some(runes[readPosition + n])
      else None
    }

    /** newTokenString: a token at the current line and column. */
    function NewToken(kind: TokenKind, literal: string): (t: Token)
      reads this
      ensures t.kind == kind && t.literal == literal
      ensures t.line == line && t.column == column
    {
      Token(kind, literal, line, column)
    }

    method SkipWhitespace()
      requires Valid()
      modifies this
      ensures Valid() && State() == SkipBlanks(runes, old(State()))
    {
      var keepGoing := true;
      while keepGoing
        invariant Valid()
        invariant SkipBlanks(runes, State()) == SkipBlanks(runes, old(State()))
        invariant !keepGoing ==> !IsBlank(currentRune)
        decreases |runes| - position, keepGoing
      {
        if IsNewLine(currentRune) {
          line := line + 1;
          column := 0;
          ReadRune();
        } else if IsWhitespace(currentRune) {
          column := column + 1;
          ReadRune();
        } else {
          keepGoing := false;
        }
      }
    }

    method ReadIdentifier() returns (literal: string)
      requires Valid() && IsLetter(currentRune)
      modifies this
      ensures Valid() && Primed(State()) && line == old(line) && column == old(column)
      ensures position == IdentEnd(runes, old(position))
      ensures literal == runes[old(position)..position]
    {
      var start := position;
      var first := true;
      while (first && IsLetter(currentRune)) || (!first && IsLetterOrDigit(currentRune))
        invariant Valid() && Primed(State()) && line == old(line) && column == old(column)
        invariant start == old(position)
        invariant first ==> position == start && IsLetter(currentRune)
        invariant !first ==> start < position && WordEnd(runes, position) == IdentEnd(runes, start)
        decreases |runes| - position
      {
        ReadRune();
        first := false;
      }
      literal := runes[start..position];
    }

    /** The digit loops of readNumber. */
    method ReadDigits()
      requires Valid() && Primed(State())
      modifies this
      ensures Valid() && Primed(State()) && line == old(line) && column == old(column)
      ensures position == DigitsEnd(runes, old(position))
    {
      while IsDigit(currentRune)
        invariant Valid() && Primed(State()) && line == old(line) && column == old(column)
        invariant old(position) <= position
        invariant DigitsEnd(runes, position) == DigitsEnd(runes, old(position))
        decreases |runes| - position
      {
        ReadRune();
      }
    }

    /** readNumber from a digit or '-': the mantissa, then the exponent. */
    method ReadNumber() returns (literal: string)
      requires Valid() && (IsDigit(currentRune) || currentRune == '-')
      modifies this
      ensures Valid() && Primed(State()) && line == old(line) && column == old(column)
      ensures position == NumberEnd(runes, old(position))
      ensures literal == runes[old(position)..position]
    {
      var start := position;
      ReadMantissa();
      ReadExponent();
      literal := runes[start..position];
    }

    /** An optional '-', digits, an optional '.' and digits. */
    method ReadMantissa()
      requires Valid() && (IsDigit(currentRune) || currentRune == '-')
      modifies this
      ensures Valid() && Primed(State()) && line == old(line) && column == old(column)
      ensures position == MantissaEnd(runes, old(position))
    {
      if currentRune == '-' {
        ReadRune();
      }
      ReadDigits();
      if currentRune == '.' {
        ReadRune();
      }
      ReadDigits();
    }

    /** Optionally 'e' or 'E', an optional sign and digits. */
    method ReadExponent()
      requires Valid() && Primed(State()) && position <= |runes|
      modifies this
      ensures Valid() && Primed(State()) && line == old(line) && column == old(column)
      ensures position == ExponentEnd(runes, old(position))
    {
      if currentRune == 'e' || currentRune == 'E' {
        ReadRune();
        if currentRune == '-' || currentRune == '+' {
          ReadRune();
        }
        ReadDigits();
      }
    }

    /** readString from the opening quote; false when the source indexes out
        of range (in peekRuneN or in the final slice). */
    method ReadString() returns (literal: string, inRange: bool)
      requires Valid() && currentRune == '"'
      modifies this
      ensures line == old(line) && column == old(column)
      ensures inRange <==> StringEnd(runes, old(position)).Some?
      ensures inRange ==> Valid() && Primed(State()) && position == StringEnd(runes, old(position)).value
      ensures inRange ==> literal == runes[old(position) + 1..position]
    {
      var start := position + 1;
      while true
        invariant Valid() && Primed(State()) && line == old(line) && column == old(column)
        invariant readPosition == position + 1 <= |runes| && start == old(position) + 1
        invariant StringScan(runes, readPosition) == StringScan(runes, start)
        decreases |runes| - readPosition
      {
        ReadRune();
        if currentRune == '\\' {
          if PeekRune() == '"' || PeekRune() == '\\' || PeekRune() == '/' || PeekRune() == 'b' ||
             PeekRune() == 'f' || PeekRune() == 'n' || PeekRune() == 'r' {
            ReadRune();
            continue;
          } else if PeekRune() == 'u' {
            ghost var backslash := position;
            var i := 0;
            while i < 4
              invariant 0 <= i <= 4 && position == backslash + i && Primed(State())
              invariant Valid() && line == old(line) && column == old(column)
              invariant forall k | 0 <= k < i :: UnicodePeekInRange(|runes|, backslash, k)
            {
              // The source checks each peeked rune for a hex digit and ignores the outcome.
              if PeekRuneN(i).None? {
                return [], false;
              }
              ReadRune();
              i := i + 1;
            }
            assert UnicodePeeksInRange(|runes|, backslash);
          }
          // Any other escaped rune is left in the literal unreported.
        }
        if currentRune == '"' || currentRune == NUL {
          break;
        }
      }
      if position > |runes| {
        return [], false;
      }
      literal := runes[start..position];
      inRange := true;
    }

    /** NextToken: skip blanks and scan one token; None when the source
        indexes out of range inside a string literal. */
    method NextToken() returns (r: Option<Token>)
      requires Valid()
      modifies this
      ensures r.Some? <==> Lex(runes, old(State())).Step?
      ensures r.Some? ==> Valid() && r.value == Lex(runes, old(State())).token
      ensures r.Some? ==> State() == Lex(runes, old(State())).next
    {
      var tok: Token;
      var advance := 1;
      SkipWhitespace();
      if currentRune == ':' {
        tok := NewToken(Colon, [currentRune]);
      } else if currentRune == ',' {
        tok := NewToken(Comma, [currentRune]);
      } else if currentRune == '.' {
        tok := NewToken(Dot, [currentRune]);
      } else if currentRune == '{' {
        tok := NewToken(LBrace, [currentRune]);
      } else if currentRune == '}' {
        tok := NewToken(RBrace, [currentRune]);
      } else if currentRune == '"' {
        var literal, inRange := ReadString();
        if !inRange {
          return None;
        }
        tok := NewToken(StringLit, literal);
        advance := Utf8Length(literal) + 2;
      } else if currentRune == '[' {
        tok := NewToken(LBracket, [currentRune]);
      } else if currentRune == ']' {
        tok := NewToken(RBracket, [currentRune]);
      } else if currentRune == NUL {
        tok := NewToken(Eof, "EOF");
      } else if IsLetter(currentRune) {
        var literal := ReadIdentifier();
        tok := NewToken(LookupIdent(literal), literal);
        column := column + |literal|;
        return Some(tok);
      } else if IsDigit(currentRune) || currentRune == '-' {
        var literal := ReadNumber();
        tok := NewToken(NumberLit, literal);
        column := column + |literal|;
        return Some(tok);
      } else {
        tok := NewToken(Illegal, [currentRune]);
      }
      ReadRune();
      column := column + advance;
      return Some(tok);
    }
  }
}
